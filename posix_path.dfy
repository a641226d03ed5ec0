/** `os.path.basename` and `os.path.dirname` on POSIX paths. */
module PosixPath {

  /** Index just past the last '/', or 0 when there is none (`p.rfind('/') + 1`). */
  function TailStart(p: string): (i: nat)
    ensures i <= |p|
  {
    if |p| == 0 then 0
    else if p[|p| - 1] == '/' then |p|
    else TailStart(p[..|p| - 1])
  }

  predicate AllSlashes(s: string) {
    forall k :: 0 <= k < |s| ==> s[k] == '/'
  }

  /** `os.path.basename(p)`: what follows the last '/'. */
  function Basename(p: string): string {
    p[TailStart(p)..]
  }

  /** `s.rstrip('/')`. */
  function StripSlashes(s: string): string {
    if |s| == 0 || s[|s| - 1] != '/' then s else StripSlashes(s[..|s| - 1])
  }

  /**
   * `os.path.dirname(p)`: everything up to the last '/', with trailing
   * slashes removed unless that part is made of slashes only.
   */
  function Dirname(p: string): string {
    var head := p[..TailStart(p)];
    if head != "" && !AllSlashes(head) then StripSlashes(head) else head
  }

  /** `TailStart` finds the last slash: there is none after it, and it is just before it. */
  lemma {:induction false} TailStartIsLastSlash(p: string)
    ensures TailStart(p) > 0 ==> p[TailStart(p) - 1] == '/'
    ensures forall k :: TailStart(p) <= k < |p| ==> p[k] != '/'
  {
    if |p| > 0 && p[|p| - 1] != '/' {
      TailStartIsLastSlash(p[..|p| - 1]);
    }
  }

  /** The position just past a slash with no slash after it is `TailStart`. */
  lemma {:induction false} TailStartUnique(p: string, i: nat)
    requires 0 < i <= |p| && p[i - 1] == '/'
    requires forall k :: i <= k < |p| ==> p[k] != '/'
    ensures TailStart(p) == i
  {
    if i < |p| {
      var q := p[..|p| - 1];
      assert forall k :: i <= k < |q| ==> q[k] == p[k];
      TailStartUnique(q, i);
    }
  }

  /** The final component holds no slash and ends the path. */
  lemma BasenameFacts(p: string)
    ensures '/' !in Basename(p)
    ensures |Basename(p)| <= |p| && p[|p| - |Basename(p)|..] == Basename(p)
  {
    TailStartIsLastSlash(p);
  }

  lemma {:induction false} StripSlashesFacts(s: string)
    ensures StripSlashes(s) <= s
    ensures AllSlashes(s[|StripSlashes(s)|..])
    ensures StripSlashes(s) == "" || StripSlashes(s)[|StripSlashes(s)| - 1] != '/'
  {
    if |s| > 0 && s[|s| - 1] == '/' {
      StripSlashesFacts(s[..|s| - 1]);
    }
  }

  /**
   * The directory is a prefix of the path, followed only by slashes up to the
   * final component, and it ends in a slash only when it is all slashes.
   */
  lemma DirnameFacts(p: string)
    ensures Dirname(p) <= p
    ensures |Dirname(p)| <= TailStart(p) && AllSlashes(p[|Dirname(p)|..TailStart(p)])
    ensures Dirname(p) == "" || AllSlashes(Dirname(p)) || Dirname(p)[|Dirname(p)| - 1] != '/'
  {
    StripSlashesFacts(p[..TailStart(p)]);
  }

  /** A path is its directory, a run of slashes, and its final component. */
  lemma PathSplitsAtLastSlash(p: string)
    ensures |Dirname(p)| <= TailStart(p)
    ensures p == Dirname(p) + p[|Dirname(p)|..TailStart(p)] + Basename(p)
  {
    DirnameFacts(p);
    var d := Dirname(p);
    assert p == p[..|d|] + p[|d|..TailStart(p)] + p[TailStart(p)..];
  }

  /** The staging target used by the strings tool. */
  lemma TmpInputFile()
    ensures Dirname("/tmp/input_file") == "/tmp"
    ensures Basename("/tmp/input_file") == "input_file"
  {
    var p := "/tmp/input_file";
    assert p[4] == '/';
    TailStartUnique(p, 5);
    assert "/tmp/input_file"[..5] == "/tmp/";
    assert !AllSlashes("/tmp/") by { assert "/tmp/"[1] != '/'; }
    assert StripSlashes("/tmp/") == "/tmp" by {
      assert "/tmp/"[..4] == "/tmp";
    }
  }
}
