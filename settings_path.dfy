/** `get_settings_path`: walk up from the working directory until a directory lists the
    settings file. The file system is a listing (directory -> names) and `os.path.split`
    is given by its head part. */
module SettingsPath {

  /** What `os.listdir` answers for each directory that exists. */
  type Listing = map<string, seq<string>>

  /** `s.split('.')[-1]`: the text after the last dot. */
  function LastDotted(s: string): (last: string)
    ensures '.' !in last
    ensures |last| <= |s| && s[|s| - |last|..] == last
    ensures |last| < |s| ==> s[|s| - |last| - 1] == '.'
  {
    if s == [] || s[|s| - 1] == '.' then []
    else LastDotted(s[..|s| - 1]) + [s[|s| - 1]]
  }

  /** `'%s.py' % settings_module.split('.')[-1]` */
  function SettingsFilename(settingsModule: string): string
  {
    LastDotted(settingsModule) + ".py"
  }

  /** Every real `os.path.split` head is either shorter than the path or the path itself
      (a root, or the empty path). */
  ghost predicate Shrinking(head: string -> string)
  {
    forall p :: head(p) == p || |head(p)| < |p|
  }

  /** `NT_ROOT.match(p)` for `^[a-zA-Z]:\\$`; `$` also matches before a final newline. */
  predicate NtRoot(p: string)
  {
    (|p| == 3 || (|p| == 4 && p[3] == '\n'))
    && ('a' <= p[0] <= 'z' || 'A' <= p[0] <= 'Z') && p[1] == ':' && p[2] == '\\'
  }

  /** A directory at which the walk gives up. */
  predicate StopsAt(p: string, nt: bool)
  {
    (nt && NtRoot(p)) || p == "/"
  }

  /** How a call of `get_settings_path` ends. */
  datatype Outcome =
    | Returned(path: string)       // `return cwd`
    | ReturnedNone                 // `return None`
    | ListdirFailed(dir: string)    // `os.listdir` raised OSError
    | LoopsForever                 // split made no progress: the loop never ends

  /** The walk, from directory `cwd` on. */
  function Walk(listing: Listing, filename: string, nt: bool, head: string -> string, cwd: string): Outcome
    requires Shrinking(head)
    decreases |cwd|
  {
    if cwd == "" then Returned(cwd)
    else if cwd !in listing then ListdirFailed(cwd)
    else if filename in listing[cwd] then Returned(cwd)
    else
      var up := head(cwd);
      if StopsAt(up, nt) then ReturnedNone
      else if up == cwd then LoopsForever
      else Walk(listing, filename, nt, head, up)
  }

  /** `to` is `from` or one of the directories above it, reached by repeated splits. */
  ghost predicate Reaches(head: string -> string, from: string, to: string)
    requires Shrinking(head)
    decreases |from|
  {
    from == to || (head(from) != from && Reaches(head, head(from), to))
  }

  /** The loop of `get_settings_path`, with `os.getcwd()` given as `cwd0`. */
  method GetSettingsPath(listing: Listing, settingsModule: string, nt: bool, head: string -> string, cwd0: string)
    returns (r: Outcome)
    requires Shrinking(head)
    ensures r == Walk(listing, SettingsFilename(settingsModule), nt, head, cwd0)
  {
    var filename := LastDotted(settingsModule) + ".py";
    var cwd := cwd0;
    while cwd != ""
      invariant Walk(listing, filename, nt, head, cwd) == Walk(listing, filename, nt, head, cwd0)
      decreases |cwd|
    {
      if cwd !in listing {
        return ListdirFailed(cwd);
      }
      if filename in listing[cwd] {
        break;
      }
      var up := head(cwd);
      if nt && NtRoot(up) {
        return ReturnedNone;
      } else if up == "/" {
        return ReturnedNone;
      }
      if up == cwd {
        return LoopsForever;
      }
      cwd := up;
    }
    return Returned(cwd);
  }

  /** A returned directory is the start or an ancestor of it, and lists the settings
      file (unless the walk ran out of path); "/" is returned only when it is the start. */
  lemma {:induction false} WalkReturnsAncestorWithFile(listing: Listing, filename: string, nt: bool,
                                                      head: string -> string, cwd: string)
    requires Shrinking(head)
    requires Walk(listing, filename, nt, head, cwd).Returned?
    ensures var d := Walk(listing, filename, nt, head, cwd).path;
      Reaches(head, cwd, d) && (d != "" ==> d in listing && filename in listing[d])
      && (StopsAt(d, nt) ==> d == cwd)
    decreases |cwd|
  {
    if cwd != "" && cwd in listing && filename !in listing[cwd] {
      WalkReturnsAncestorWithFile(listing, filename, nt, head, head(cwd));
    }
  }

  /** Each split up the chain makes the path strictly shorter. */
  lemma {:induction false} ReachesShorter(head: string -> string, from: string, to: string)
    requires Shrinking(head)
    requires Reaches(head, from, to) && from != to
    ensures |to| < |from|
    decreases |from|
  {
    if head(from) != to {
      ReachesShorter(head, head(from), to);
    }
  }

  /** The returned directory is the nearest one that lists the settings file: every
      directory the walk passed on its way up exists and does not list it. */
  lemma {:induction false} WalkReturnsNearest(listing: Listing, filename: string, nt: bool,
                                             head: string -> string, cwd: string, mid: string)
    requires Shrinking(head)
    requires Walk(listing, filename, nt, head, cwd).Returned?
    requires var d := Walk(listing, filename, nt, head, cwd).path;
      Reaches(head, cwd, mid) && Reaches(head, mid, d) && mid != d
    ensures mid in listing && filename !in listing[mid]
    decreases |cwd|
  {
    var d := Walk(listing, filename, nt, head, cwd).path;
    if mid != cwd {
      if cwd == "" || filename in listing[cwd] {
        ReachesShorter(head, cwd, mid);
        ReachesShorter(head, mid, d);
      } else {
        WalkReturnsNearest(listing, filename, nt, head, head(cwd), mid);
      }
    }
  }

  /** `None` means the walk split its way up to "/" (or a drive root on NT) without
      finding the file in any directory on the way. */
  lemma {:induction false} WalkNoneAtRoot(listing: Listing, filename: string, nt: bool,
                                         head: string -> string, cwd: string)
    returns (last: string)
    requires Shrinking(head)
    requires Walk(listing, filename, nt, head, cwd) == ReturnedNone
    ensures Reaches(head, cwd, last) && StopsAt(head(last), nt)
    ensures forall mid :: Reaches(head, cwd, mid) && Reaches(head, mid, last) ==>
      mid in listing && filename !in listing[mid]
    decreases |cwd|
  {
    var up := head(cwd);
    if StopsAt(up, nt) {
      last := cwd;
      forall mid | Reaches(head, cwd, mid) && Reaches(head, mid, last)
        ensures mid == cwd
      {
        if mid != cwd {
          ReachesShorter(head, cwd, mid);
          ReachesShorter(head, mid, cwd);
        }
      }
    } else {
      last := WalkNoneAtRoot(listing, filename, nt, head, up);
    }
  }

  /** Conversely, a walk that passes only directories without the file up to one whose
      split is "/" (or an NT drive root on NT) returns `None`. */
  lemma {:induction false} WalkStopsAtRoot(listing: Listing, filename: string, nt: bool,
                                          head: string -> string, cwd: string, last: string)
    requires Shrinking(head)
    requires Reaches(head, cwd, last) && StopsAt(head(last), nt)
    requires forall mid :: Reaches(head, cwd, mid) && Reaches(head, mid, last) ==>
      mid in listing && filename !in listing[mid]
    ensures Walk(listing, filename, nt, head, cwd) == ReturnedNone
    decreases |cwd|
  {
    assert Reaches(head, cwd, cwd);
    var up := head(cwd);
    if cwd != last && !StopsAt(up, nt) {
      forall mid | Reaches(head, up, mid) && Reaches(head, mid, last)
        ensures mid in listing && filename !in listing[mid]
      {
        assert Reaches(head, cwd, mid);
      }
      WalkStopsAtRoot(listing, filename, nt, head, up, last);
    }
  }

  /** Conversely, the first directory on the way up that lists the file is returned,
      provided no directory before it splits to a stopping point. */
  lemma {:induction false} WalkFindsFirst(listing: Listing, filename: string, nt: bool,
                                         head: string -> string, cwd: string, d: string)
    requires Shrinking(head)
    requires Reaches(head, cwd, d) && d in listing && filename in listing[d]
    requires forall mid :: Reaches(head, cwd, mid) && Reaches(head, mid, d) && mid != d ==>
      mid in listing && filename !in listing[mid] && !StopsAt(head(mid), nt)
    ensures Walk(listing, filename, nt, head, cwd) == Returned(d)
    decreases |cwd|
  {
    if cwd != d {
      assert Reaches(head, cwd, cwd);
      var up := head(cwd);
      forall mid | Reaches(head, up, mid) && Reaches(head, mid, d) && mid != d
        ensures mid in listing && filename !in listing[mid] && !StopsAt(head(mid), nt)
      {
        assert Reaches(head, cwd, mid);
      }
      WalkFindsFirst(listing, filename, nt, head, up, d);
    }
  }

  /** `os.path.split(p)[0]` on POSIX: everything up to the last slash, with trailing
      slashes removed unless the head is all slashes. */
  function PosixHead(p: string): string
  {
    var h := p[..AfterLastSlash(p)];
    if h != [] && !AllSlashes(h) then StripSlashes(h) else h
  }

  /** `p.rfind('/') + 1` */
  function AfterLastSlash(p: string): (i: nat)
    ensures i <= |p|
    ensures i > 0 ==> p[i - 1] == '/'
    ensures forall k :: i <= k < |p| ==> p[k] != '/'
  {
    if p == [] then 0
    else if p[|p| - 1] == '/' then |p|
    else AfterLastSlash(p[..|p| - 1])
  }

  predicate AllSlashes(s: string)
  {
    forall k :: 0 <= k < |s| ==> s[k] == '/'
  }

  /** `s.rstrip('/')` */
  function StripSlashes(s: string): (r: string)
    ensures |r| <= |s| && r == s[..|r|]
    ensures s != [] && s[|s| - 1] == '/' ==> |r| < |s|
  {
    if s != [] && s[|s| - 1] == '/' then StripSlashes(s[..|s| - 1]) else s
  }

  /** The POSIX split satisfies what the walk needs of it. */
  lemma PosixHeadShrinking()
    ensures Shrinking(PosixHead)
  {
    forall p
      ensures PosixHead(p) == p || |PosixHead(p)| < |p|
    {
      var i := AfterLastSlash(p);
      var h := p[..i];
      if i == |p| {
        assert h == p;
      }
    }
  }
}
