/**
 * allowed_musicfile: an upload is accepted when its name has a '.' and the text after the
 * last '.', lower-cased, is one of the allowed music extensions (a set that belongs to
 * MusicInfo and is a parameter here).
 */
module MusicFiles {
  import opened Wrappers

  /** The position of the last '.', where rsplit('.', 1) cuts. */
  function LastDot(s: string): (r: Option<nat>)
    ensures r.Some? ==> r.value < |s| && s[r.value] == '.'
    ensures r.Some? ==> forall i :: r.value < i < |s| ==> s[i] != '.'
    ensures r.None? <==> '.' !in s
  {
    if s == [] then None
    else if s[|s| - 1] == '.' then Some(|s| - 1)
    else
      var r := LastDot(s[..|s| - 1]);
      assert s == s[..|s| - 1] + [s[|s| - 1]];
      r
  }

  function LowerChar(c: char): char {
    if 'A' <= c <= 'Z' then (c as int - 'A' as int + 'a' as int) as char else c
  }

  /** str.lower() on ASCII letters. */
  function Lower(s: string): string {
    seq(|s|, i requires 0 <= i < |s| => LowerChar(s[i]))
  }

  /** allowed_musicfile(fileName) against the given extension set. */
  predicate AllowedMusicFile(fileName: string, extensions: set<string>): (r: bool)
    ensures r ==> exists i :: 0 <= i < |fileName| && fileName[i] == '.' && Lower(fileName[i + 1..]) in extensions
  {
    '.' in fileName
    && match LastDot(fileName)
       case Some(i) => Lower(fileName[i + 1..]) in extensions
       case None => false
  }

  /** The '.' at i is the last one and the lower-cased text after it is allowed. */
  ghost predicate AllowedAfterDot(fileName: string, i: int, extensions: set<string>) {
    && 0 <= i < |fileName| && fileName[i] == '.'
    && (forall j :: i < j < |fileName| ==> fileName[j] != '.')
    && Lower(fileName[i + 1..]) in extensions
  }

  /**
   * A name is allowed exactly when some '.' in it has no later '.' and the lower-cased
   * text after it is an allowed extension.
   */
  lemma AllowedMusicFileIff(fileName: string, extensions: set<string>)
    ensures AllowedMusicFile(fileName, extensions) <==> exists i :: AllowedAfterDot(fileName, i, extensions)
  {
    if AllowedMusicFile(fileName, extensions) {
      assert AllowedAfterDot(fileName, LastDot(fileName).value, extensions);
    }
    forall i | AllowedAfterDot(fileName, i, extensions)
      ensures AllowedMusicFile(fileName, extensions)
    {
      LastDotUnique(fileName, i);
    }
  }

  /** A '.' with no later '.' is the one LastDot finds. */
  lemma LastDotUnique(s: string, i: nat)
    requires i < |s| && s[i] == '.'
    requires forall j :: i < j < |s| ==> s[j] != '.'
    ensures LastDot(s) == Some(i)
  {
    assert '.' in s;
    var k := LastDot(s).value;
    assert s[k] == '.';
  }

  /**
   * Appending "." and an extension without a dot decides by that extension alone,
   * whatever the base name and in any letter case.
   */
  lemma {:induction false} AllowedByExtension(base: string, ext: string, extensions: set<string>)
    requires '.' !in ext
    ensures AllowedMusicFile(base + "." + ext, extensions) <==> Lower(ext) in extensions
  {
    var name := base + "." + ext;
    var k := |base|;
    assert name[k] == '.';
    assert forall j :: k < j < |name| ==> name[j] == ext[j - k - 1];
    var r := LastDot(name);
    assert r.Some?;
    assert r.value == k by {
      assert forall j :: k < j < |name| ==> name[j] != '.';
      assert name[r.value] == '.';
    }
    assert name[k + 1..] == ext;
  }

  /** A name without a '.' is never allowed, whatever the extension set. */
  lemma NoDotNotAllowed(fileName: string, extensions: set<string>)
    requires forall i :: 0 <= i < |fileName| ==> fileName[i] != '.'
    ensures !AllowedMusicFile(fileName, extensions)
  {
  }
}
