/** The operating-system probes of package `utils`: the directory of the running
    executable, the directory-existence check and the local IPv4 address lookup.
    The results of the system calls they make are parameters. */
module OsUtils {
  import opened Outcomes

  // ---------------------------------------------------------------------------
  // strings.Split / strings.Join for a one-character separator
  // ---------------------------------------------------------------------------

  /** The position of the last occurrence of `c` in `s`. */
  function LastIndexOf(s: string, c: char): (i: nat)
    requires c in s
    ensures i < |s| && s[i] == c
    ensures c !in s[i + 1..]
  {
    if s[|s| - 1] == c then |s| - 1
    else
      var i := LastIndexOf(s[..|s| - 1], c);
      assert s[i + 1..] == s[..|s| - 1][i + 1..] + [s[|s| - 1]];
      i
  }

  /** `strings.Split(s, string(sep))`: the pieces of `s` between occurrences of `sep`.
      Like Go's, it yields `[""]` for the empty string and one piece more than
      there are separators. It is defined here by peeling off the last piece. */
  function Split(s: string, sep: char): (parts: seq<string>)
    ensures |parts| >= 1
    ensures forall k :: 0 <= k < |parts| ==> sep !in parts[k]
    decreases |s|
  {
    if sep !in s then [s]
    else
      var i := LastIndexOf(s, sep);
      Split(s[..i], sep) + [s[i + 1..]]
  }

  /** `strings.Join(parts, string(sep))`. */
  function Join(parts: seq<string>, sep: char): string
  {
    if |parts| == 0 then ""
    else if |parts| == 1 then parts[0]
    else Join(parts[..|parts| - 1], sep) + [sep] + parts[|parts| - 1]
  }

  /** When `s` holds a separator, its pieces are those of the text before the last
      separator, followed by the text after it. */
  lemma SplitAtLast(s: string, sep: char)
    requires sep in s
    ensures var parts, i := Split(s, sep), LastIndexOf(s, sep);
      && parts[..|parts| - 1] == Split(s[..i], sep)
      && parts[|parts| - 1] == s[i + 1..]
  {
  }

  /** Joining the pieces of a split gives back the string. */
  lemma {:induction false} JoinSplit(s: string, sep: char)
    ensures Join(Split(s, sep), sep) == s
    decreases |s|
  {
    if sep in s {
      var i := LastIndexOf(s, sep);
      var parts := Split(s, sep);
      SplitAtLast(s, sep);
      JoinSplit(s[..i], sep);
      assert Join(parts, sep) == s[..i] + [sep] + s[i + 1..];
      assert s == s[..i] + [sep] + s[i + 1..];
    }
  }

  /** Like Go's, the split yields one piece more than there are separators. */
  lemma {:induction false} SplitCount(s: string, sep: char)
    ensures |Split(s, sep)| == multiset(s)[sep] + 1
    decreases |s|
  {
    if sep in s {
      var i := LastIndexOf(s, sep);
      SplitAtLast(s, sep);
      SplitCount(s[..i], sep);
      assert s == s[..i] + [sep] + s[i + 1..];
      assert multiset(s) == multiset(s[..i]) + multiset{sep} + multiset(s[i + 1..]);
    } else {
      assert multiset(s)[sep] == 0;
    }
  }

  /** The other round trip: pieces that hold no separator, joined and split
      again, come back unchanged. */
  lemma {:induction false} SplitJoin(parts: seq<string>, sep: char)
    requires |parts| >= 1
    requires forall k :: 0 <= k < |parts| ==> sep !in parts[k]
    ensures Split(Join(parts, sep), sep) == parts
    decreases |parts|
  {
    if |parts| > 1 {
      var init, last := parts[..|parts| - 1], parts[|parts| - 1];
      var j := Join(init, sep);
      var s := Join(parts, sep);
      assert s == j + [sep] + last;
      assert s[|j|] == sep;
      var i := LastIndexOf(s, sep);
      assert s[..i] == j && s[i + 1..] == last;
      SplitJoin(init, sep);
      assert parts == init + [last];
    }
  }

  // ---------------------------------------------------------------------------
  // ExecDir (utils/os.go)
  // ---------------------------------------------------------------------------

  /** The last `/`-separated segment of `path`. */
  function LastSegment(path: string): string
  {
    var parts := Split(path, '/');
    parts[|parts| - 1]
  }

  /** Every `/`-separated segment of `path` except the last, joined again with `/`:
      the text before the last `/`, or "" when there is none. */
  function Dir(path: string): (dir: string)
    ensures '/' !in path ==> dir == ""
    ensures '/' in path ==>
      |dir| < |path| && path[..|dir|] == dir && path[|dir|] == '/' && '/' !in path[|dir| + 1..]
  {
    JoinInit(path);
    var parts := Split(path, '/');
    Join(parts[..|parts| - 1], '/')
  }

  /** Every piece but the last, joined again, is the text before the last `/`. */
  lemma JoinInit(path: string)
    ensures var parts := Split(path, '/');
      Join(parts[..|parts| - 1], '/') == if '/' in path then path[..LastIndexOf(path, '/')] else ""
  {
  }

  /** Round trip: the directory, a `/` and the last segment rebuild the path. */
  lemma DirRoundTrip(path: string)
    requires '/' in path
    ensures Dir(path) + "/" + LastSegment(path) == path
    ensures '/' !in LastSegment(path)
  {
  }

  /** A file directly under the root has the directory "" (not "/"). */
  lemma DirOfRootLevel(name: string)
    requires '/' !in name
    ensures Dir("/" + name) == ""
  {
  }

  /** The directory of an absolute path is "" or itself absolute. */
  lemma DirOfAbsolute(path: string)
    requires "/" <= path
    ensures Dir(path) == "" || "/" <= Dir(path)
  {
  }

  /** `ExecDir()`: look the program up on the PATH, make the result absolute and
      return its directory. `lookPath` is what `exec.LookPath(os.Args[0])` returned
      and `abs` stands for `filepath.Abs`; an `Err` result is the panic the Go
      function raises when either fails. */
  function ExecDir(lookPath: Result<string, GoError>, abs: string -> Result<string, GoError>)
    : (r: Result<string, GoError>)
    ensures lookPath.Err? ==> r == Err(lookPath.error)
    ensures lookPath.Ok? && abs(lookPath.value).Err? ==> r == Err(abs(lookPath.value).error)
    ensures r.Ok? <==> lookPath.Ok? && abs(lookPath.value).Ok?
    ensures r.Ok? ==>
      var path := abs(lookPath.value).value;
      ('/' in path ==> r.value + "/" + LastSegment(path) == path) &&
      ('/' !in path ==> r.value == "") &&
      ("/" <= path ==> r.value == "" || "/" <= r.value)
  {
    match lookPath
    case Err(e) => Err(e)
    case Ok(file) =>
      match abs(file)
      case Err(e) => Err(e)
      case Ok(path) => Ok(Dir(path))
  }

  // ---------------------------------------------------------------------------
  // IsDirExist (utils/os.go)
  // ---------------------------------------------------------------------------

  /** What `os.Stat` reports about an existing path, as far as this code looks. */
  datatype FileInfo = FileInfo(name: string, isDir: bool)

  /** `IsDirExist(path)`, where `stat` stands for `os.Stat`. A stat error other than
      "does not exist" answers true: the check fails open. */
  function IsDirExist(path: string, stat: string -> Result<FileInfo, GoError>): (found: bool)
    ensures stat(path).Ok? ==> (found <==> stat(path).value.isDir)
    ensures stat(path).Err? && IsNotExist(stat(path).error) ==> !found
    ensures stat(path).Err? && !IsNotExist(stat(path).error) ==> found
  {
    match stat(path)
    case Err(e) => !IsNotExist(e)
    case Ok(info) => info.isDir
  }

  /** The answer is false exactly when the path is known to be missing or known
      not to be a directory. */
  lemma IsDirExistFalse(path: string, stat: string -> Result<FileInfo, GoError>)
    ensures !IsDirExist(path, stat) <==>
      stat(path) == Err(ErrNotExist) || (stat(path).Ok? && !stat(path).value.isDir)
  {
  }

  // ---------------------------------------------------------------------------
  // GetLocalIP (utils/os.go)
  // ---------------------------------------------------------------------------

  /** `IP.String()` is never empty (a nil IP prints as "<nil>"). */
  type IPText = s: string | s != "" witness "<nil>"

  /** An IP address through the three questions the code asks of it:
      `IsLoopback()`, `To4() != nil`, and `String()`. */
  datatype IP = IP(loopback: bool, ipv4: bool, text: IPText)

  /** A `net.Addr` from `net.InterfaceAddrs()`: an `*net.IPNet` or some other kind. */
  datatype Addr = IPNet(ip: IP) | OtherAddr(network: string, text: string)

  /** An address the lookup accepts: an IPNet that is not loopback and has a
      4-byte form. */
  predicate Qualifies(a: Addr) {
    a.IPNet? && !a.ip.loopback && a.ip.ipv4
  }

  /** `GetLocalIP()`, where `addrs` is what `net.InterfaceAddrs()` returned: the text of
      the first qualifying address in enumeration order, or "" when enumeration
      failed or no address qualifies. */
  method GetLocalIP(addrs: Result<seq<Addr>, GoError>) returns (ip: string)
    ensures addrs.Err? ==> ip == ""
    ensures addrs.Ok? ==>
      (ip == "" <==> forall k :: 0 <= k < |addrs.value| ==> !Qualifies(addrs.value[k]))
    ensures ip != "" ==> (addrs.Ok? &&
      exists k :: 0 <= k < |addrs.value| && Qualifies(addrs.value[k]) &&
        ip == addrs.value[k].ip.text &&
        forall j :: 0 <= j < k ==> !Qualifies(addrs.value[j]))
  {
    if addrs.Err? {
      return "";
    }
    var list := addrs.value;
    for n := 0 to |list|
      invariant forall j :: 0 <= j < n ==> !Qualifies(list[j])
    {
      var address := list[n];
      if address.IPNet? && !address.ip.loopback {
        if address.ip.ipv4 {
          return address.ip.text;
        }
      }
    }
    return "";
  }
}
