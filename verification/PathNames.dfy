/**
  The parts of a file path the backend looks at: the last component (the
  track name shown to the user), its extension, and the audio-file test that
  decides which files of a folder become playlist entries.

  The model uses Windows separators: both '/' and '\' separate components.
  Trailing separators are ignored, and a final ".." component has no file name.
 */
module PathNames {
  import opened Base

  predicate IsSeparator(c: char) {
    c == '/' || c == '\\'
  }

  /** The path without its trailing separators. */
  function TrimTrailingSeparators(p: string): string {
    if p != [] && IsSeparator(p[|p| - 1]) then TrimTrailingSeparators(p[..|p| - 1]) else p
  }

  /** Trimming keeps a prefix that does not end in a separator, and drops only separators. */
  lemma {:induction false} TrimTrailingSeparatorsIsPrefix(p: string)
    ensures TrimTrailingSeparators(p) <= p
    ensures var r := TrimTrailingSeparators(p); r == [] || !IsSeparator(r[|r| - 1])
    ensures forall i | |TrimTrailingSeparators(p)| <= i < |p| :: IsSeparator(p[i])
  {
    if p != [] && IsSeparator(p[|p| - 1]) {
      TrimTrailingSeparatorsIsPrefix(p[..|p| - 1]);
    }
  }

  /** The text after the last separator of `p`. */
  function LastComponent(p: string): string {
    if p == [] || IsSeparator(p[|p| - 1]) then [] else LastComponent(p[..|p| - 1]) + [p[|p| - 1]]
  }

  /** The last component is a separator-free suffix, preceded by a separator unless it is all of `p`. */
  lemma {:induction false} LastComponentIsSuffix(p: string)
    ensures var r := LastComponent(p); |r| <= |p| && r == p[|p| - |r|..]
    ensures var r := LastComponent(p); forall i | 0 <= i < |r| :: !IsSeparator(r[i])
    ensures var r := LastComponent(p); |r| < |p| ==> IsSeparator(p[|p| - |r| - 1])
  {
    if p != [] && !IsSeparator(p[|p| - 1]) {
      var n := |p|;
      var init := p[..n - 1];
      LastComponentIsSuffix(init);
      var r0 := LastComponent(init);
      var m := |r0|;
      var r := r0 + [p[n - 1]];
      assert LastComponent(p) == r;
      assert r == p[n - m - 1..] by {
        assert p[n - m - 1..] == init[n - 1 - m..] + [p[n - 1]];
      }
      forall i | 0 <= i < |r|
        ensures !IsSeparator(r[i])
      {
        if i < m {
          assert r[i] == r0[i];
        }
      }
      if |r| < n {
        assert p[n - m - 2] == init[n - 1 - m - 1];
      }
    }
  }

  /** `Path::file_name`: the final component, if it is a normal name. */
  function FileName(p: string): (r: Option<string>)
    ensures r.Some? ==> r.value != [] && r.value != ".." && |r.value| <= |p|
  {
    var t := TrimTrailingSeparators(p);
    TrimTrailingSeparatorsIsPrefix(p);
    LastComponentIsSuffix(t);
    var c := LastComponent(t);
    if c == [] || c == ".." then None else Some(c)
  }

  /**
    A file name is a normal component: non-empty, not "..", and free of
    separators.
   */
  lemma FileNameIsLastComponent(p: string)
    requires FileName(p).Some?
    ensures FileName(p).value != [] && FileName(p).value != ".."
    ensures forall i | 0 <= i < |FileName(p).value| :: !IsSeparator(FileName(p).value[i])
  {
    LastComponentIsSuffix(TrimTrailingSeparators(p));
  }

  /** Naming a file inside a directory and taking its file name gives the name back. */
  lemma {:induction false} FileNameOfJoin(dir: string, name: string)
    requires dir == [] || IsSeparator(dir[|dir| - 1])
    requires name != [] && name != ".."
    requires forall i | 0 <= i < |name| :: !IsSeparator(name[i])
    ensures FileName(dir + name) == Some(name)
  {
    var p := dir + name;
    assert TrimTrailingSeparators(p) == p;
    LastComponentOfJoin(dir, name);
  }

  lemma {:induction false} LastComponentOfJoin(dir: string, name: string)
    requires dir == [] || IsSeparator(dir[|dir| - 1])
    requires forall i | 0 <= i < |name| :: !IsSeparator(name[i])
    ensures LastComponent(dir + name) == name
  {
    if name == [] {
      assert dir + name == dir;
    } else {
      var init := name[..|name| - 1];
      assert (dir + name)[..|dir + name| - 1] == dir + init;
      LastComponentOfJoin(dir, init);
      assert init + [name[|name| - 1]] == name;
    }
  }

  /** Index of the last '.' of `s`, if any. */
  function LastDot(s: string): (r: Option<nat>)
    ensures r.Some? ==> r.value < |s| && s[r.value] == '.'
    ensures r.Some? ==> forall i | r.value < i < |s| :: s[i] != '.'
    ensures r.None? ==> forall i | 0 <= i < |s| :: s[i] != '.'
  {
    if s == [] then None
    else if s[|s| - 1] == '.' then Some(|s| - 1)
    else LastDot(s[..|s| - 1])
  }

  /** `name` is a non-empty stem, a '.', and `ext`, which holds no '.'. */
  predicate StemAndExtension(name: string, ext: string) {
    && |name| >= |ext| + 2
    && name[|name| - |ext| - 1] == '.'
    && name[|name| - |ext|..] == ext
    && forall i | 0 <= i < |ext| :: ext[i] != '.'
  }

  /**
    The extension of a file name: the text after its last '.'. A name
    without a '.', or whose only '.' is its first character (".mp3"), has none.
   */
  function NameExtension(name: string): (r: Option<string>)
    ensures r.Some? ==> StemAndExtension(name, r.value)
    ensures r.None? ==> forall i | 1 <= i < |name| :: name[i] != '.'
  {
    match LastDot(name)
    case None => None
    case Some(k) => if k == 0 then None else Some(name[k + 1..])
  }

  /** `Path::extension`: the extension of the file name, if there is one. */
  function Extension(p: string): (r: Option<string>)
    ensures FileName(p).None? ==> r.None?
    ensures r.Some? ==>
      var name := FileName(p).value;
      && FileName(p).Some? && |name| >= |r.value| + 2
      && name[|name| - |r.value| - 1] == '.' && name[|name| - |r.value|..] == r.value
  {
    match FileName(p)
    case None => None
    case Some(name) => NameExtension(name)
  }

  function LowerChar(c: char): char {
    if 'A' <= c <= 'Z' then (c as int + 32) as char else c
  }

  /** `to_lowercase`, for the ASCII letters. */
  function Lower(s: string): (r: string)
    ensures |r| == |s|
    ensures forall i | 0 <= i < |s| :: r[i] == LowerChar(s[i])
  {
    if s == [] then [] else [LowerChar(s[0])] + Lower(s[1..])
  }

  const AudioExtensions: set<string> := {"mp3", "wav", "flac"}

  /** `is_audio_file`: the lower-cased extension is one of the playable formats. */
  predicate IsAudioFile(p: string): (r: bool)
    ensures r ==> FileName(p).Some? && |FileName(p).value| >= 5
  {
    match Extension(p)
    case None => false
    case Some(e) => Lower(e) in AudioExtensions
  }

  /** `name` is a non-empty stem, a '.', and `ext` in any mix of letter case. */
  predicate EndsWithExtension(name: string, ext: string) {
    |name| >= |ext| + 2 && name[|name| - |ext| - 1] == '.' && Lower(name[|name| - |ext|..]) == ext
  }

  /**
    A path is an audio file exactly when its file name is a stem followed by
    ".mp3", ".wav" or ".flac", whatever the letter case.
   */
  lemma IsAudioFileIff(p: string)
    ensures IsAudioFile(p) <==>
      FileName(p).Some? &&
      (EndsWithExtension(FileName(p).value, "mp3") ||
       EndsWithExtension(FileName(p).value, "wav") ||
       EndsWithExtension(FileName(p).value, "flac"))
  {
    match FileName(p)
    case None =>
    case Some(name) =>
      assert Extension(p) == NameExtension(name);
      if IsAudioFile(p) {
        AudioName(name);
      } else {
        NotAudioName(name);
      }
  }

  /** The "only if" half of `IsAudioFileIff`, on the file name alone. */
  lemma AudioName(name: string)
    requires NameExtension(name).Some? && Lower(NameExtension(name).value) in AudioExtensions
    ensures EndsWithExtension(name, "mp3") || EndsWithExtension(name, "wav") || EndsWithExtension(name, "flac")
  {
    var e := NameExtension(name).value;
    assert EndsWithExtension(name, Lower(e));
  }

  /** The "if" half of `IsAudioFileIff`, on the file name alone. */
  lemma NotAudioName(name: string)
    requires NameExtension(name).None? || Lower(NameExtension(name).value) !in AudioExtensions
    ensures !EndsWithExtension(name, "mp3") && !EndsWithExtension(name, "wav") && !EndsWithExtension(name, "flac")
  {
    if EndsWithExtension(name, "mp3") {
      ExtensionOfStem(name, "mp3");
    } else if EndsWithExtension(name, "wav") {
      ExtensionOfStem(name, "wav");
    } else if EndsWithExtension(name, "flac") {
      ExtensionOfStem(name, "flac");
    }
  }

  /** A name ending in '.' and then a dot-free `ext`, in any letter case, has that text as its extension. */
  lemma ExtensionOfStem(name: string, ext: string)
    requires EndsWithExtension(name, ext)
    requires forall i | 0 <= i < |ext| :: ext[i] != '.'
    ensures NameExtension(name) == Some(name[|name| - |ext|..])
  {
    var k := |name| - |ext| - 1;
    var tail := name[k + 1..];
    forall i | k < i < |name|
      ensures name[i] != '.'
    {
      assert name[i] == tail[i - k - 1];
      assert Lower(tail)[i - k - 1] == LowerChar(tail[i - k - 1]);
    }
    var d := LastDot(name);
    assert d.Some? && d.value >= k;
  }
}
