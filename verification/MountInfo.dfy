/**
 pkg/mount/mountinfo.go: reading /proc/<pid>/mountinfo. The kernel escapes four
 bytes of a path as a backslash and three octal digits.
 */
module MountInfo {
  import opened Text
  import opened Paths
  import opened Luks

  // --- unescapeOctal -----------------------------------------------------------

  const BACKSLASH: byte := 92

  /** Space, tab, newline and the backslash itself. */
  predicate Escapes(b: byte) {
    b == 32 || b == 9 || b == 10 || b == BACKSLASH
  }

  function Digit(n: int): byte
    requires 0 <= n < 8
  {
    (48 + n) as byte
  }

  /** One byte as the kernel prints it. */
  function EscapedByte(b: byte): seq<byte> {
    if Escapes(b) then [BACKSLASH, Digit(b as int / 64), Digit(b as int / 8 % 8), Digit(b as int % 8)] else [b]
  }

  function Escaped(s: seq<byte>): seq<byte> {
    if s == [] then [] else EscapedByte(s[0]) + Escaped(s[1..])
  }

  predicate IsDigit(b: byte) {
    48 <= b <= 55
  }

  /** strconv.ParseUint(s, 8, 8) of three bytes: octal digits, at most 255. */
  function ParseOctal(s: seq<byte>): Option<byte>
    requires |s| == 3
  {
    if IsDigit(s[0]) && IsDigit(s[1]) && IsDigit(s[2]) then
      var n := (s[0] as int - 48) * 64 + (s[1] as int - 48) * 8 + (s[2] as int - 48);
      if n < 256 then Some(n as byte) else None
    else None
  }

  /** What unescapeOctal makes of the rest of a string. */
  function Unescaped(s: seq<byte>): seq<byte> {
    if s == [] then []
    else if s[0] == BACKSLASH && |s| >= 4 && ParseOctal(s[1..4]).Some? then
      [ParseOctal(s[1..4]).value] + Unescaped(s[4..])
    else [s[0]] + Unescaped(s[1..])
  }

  /** unescapeOctal: the loop that skips three more bytes after an escape. */
  method UnescapeOctal(s: seq<byte>) returns (r: seq<byte>)
    ensures r == Unescaped(s)
  {
    if BACKSLASH !in s {
      NothingToUnescape(s);
      return s;
    }
    r := [];
    var i := 0;
    while i < |s|
      invariant 0 <= i <= |s|
      invariant r + Unescaped(s[i..]) == Unescaped(s)
    {
      UnescapedAt(s, i);
      ghost var done, start := r, i;
      var b := s[i];
      if s[i] == BACKSLASH && i + 4 <= |s| {
        var parsed := ParseOctal(s[i + 1..i + 4]);
        if parsed.Some? {
          b := parsed.value;
          i := i + 3;
        }
      }
      r := r + [b];
      i := i + 1;
      assert Unescaped(s[start..]) == [b] + Unescaped(s[i..]);
      Associates(done, [b], Unescaped(s[i..]));
    }
  }

  lemma Associates(a: seq<byte>, b: seq<byte>, c: seq<byte>)
    ensures (a + b) + c == a + (b + c)
  {
  }

  lemma UnescapedAt(s: seq<byte>, i: nat)
    requires i < |s|
    ensures Unescaped(s[i..]) ==
            if s[i] == BACKSLASH && i + 4 <= |s| && ParseOctal(s[i + 1..i + 4]).Some? then
              [ParseOctal(s[i + 1..i + 4]).value] + Unescaped(s[i + 4..])
            else [s[i]] + Unescaped(s[i + 1..])
  {
    var rest := s[i..];
    assert rest[1..] == s[i + 1..];
    if i + 4 <= |s| {
      assert rest[1..4] == s[i + 1..i + 4] && rest[4..] == s[i + 4..];
    }
  }

  lemma {:induction false} NothingToUnescape(s: seq<byte>)
    requires BACKSLASH !in s
    ensures Unescaped(s) == s
  {
    if s != [] {
      NothingToUnescape(s[1..]);
    }
  }

  /** Unescaping gives back what the kernel escaped, for every byte string. */
  lemma {:induction false} UnescapeInvertsEscape(s: seq<byte>)
    ensures Unescaped(Escaped(s)) == s
  {
    if s != [] {
      UnescapeInvertsEscape(s[1..]);
      var e, rest := Escaped(s), Escaped(s[1..]);
      if Escapes(s[0]) {
        assert e[1..4] == EscapedByte(s[0])[1..4];
        assert ParseOctal(e[1..4]) == Some(s[0]);
        assert e[4..] == rest;
      } else {
        assert e[1..] == rest;
      }
    }
  }

  // --- rows ----------------------------------------------------------------------

  datatype Row = Row(majorMinor: string, mountPoint: string, mountOptions: seq<string>, superOptions: seq<string>)

  /** The filesystem was mounted read-write and was forced read-only. */
  predicate ForcedReadOnly(r: Row) {
    || "emergency_ro" in r.superOptions || "shutdown" in r.superOptions
    || ("rw" in r.mountOptions && "ro" in r.superOptions)
  }

  /** LastAt: the row visible at the path, searching backwards. */
  method LastAt(rows: seq<Row>, path: string) returns (r: Option<Row>)
    ensures r == LastRow(rows, path)
  {
    var i := |rows|;
    assert rows[..i] == rows;
    while i > 0
      invariant 0 <= i <= |rows|
      invariant LastRow(rows, path) == LastRow(rows[..i], path)
    {
      i := i - 1;
      assert rows[..i + 1][..i] == rows[..i];
      if rows[i].mountPoint == path {
        return Some(rows[i]);
      }
    }
    return None;
  }

  function LastRow(rows: seq<Row>, path: string): Option<Row> {
    if rows == [] then None
    else if rows[|rows| - 1].mountPoint == path then Some(rows[|rows| - 1])
    else LastRow(rows[..|rows| - 1], path)
  }

  /** Nothing is mounted over the row that LastAt finds, and it finds one if there is one. */
  lemma {:induction false} LastRowIsVisible(rows: seq<Row>, path: string)
    ensures match LastRow(rows, path)
            case Some(r) => exists i :: 0 <= i < |rows| && rows[i] == r && r.mountPoint == path &&
                              forall j :: i < j < |rows| ==> rows[j].mountPoint != path
            case None => forall i :: 0 <= i < |rows| ==> rows[i].mountPoint != path
  {
    if rows != [] && rows[|rows| - 1].mountPoint != path {
      LastRowIsVisible(rows[..|rows| - 1], path);
    } else if rows != [] {
      assert rows[|rows| - 1] == LastRow(rows, path).value;
    }
  }

  // --- publish targets -------------------------------------------------------------

  const PODS := "/pods/"
  const VOLUMES := "/volumes/kubernetes.io~csi/"
  const MOUNT := "/mount"
  const UID_LENGTH: nat := 36

  predicate UidChar(c: char) {
    '0' <= c <= '9' || 'a' <= c <= 'f' || c == '-'
  }

  predicate PodUid(s: string) {
    |s| == UID_LENGTH && forall i :: 0 <= i < |s| ==> UidChar(s[i])
  }

  function Before(s: string, tail: string): string
    requires HasSuffix(s, tail)
  {
    s[..|s| - |tail|]
  }

  /** The pod a mount point belongs to, taken apart from its end. */
  function PodOf(path: string): Option<string> {
    if !HasSuffix(path, MOUNT) then None
    else
      var named := Before(path, MOUNT);
      var name := AfterSlash(named);
      var volumes := named[..|named| - |name|];
      if name == "" || !HasSuffix(volumes, VOLUMES) then None
      else
        var pod := Before(volumes, VOLUMES);
        if |pod| < UID_LENGTH || !PodUid(pod[|pod| - UID_LENGTH..]) ||
           !HasSuffix(pod[..|pod| - UID_LENGTH], PODS) then None
        else Some(pod[|pod| - UID_LENGTH..])
  }

  /** The regular expression /pods/([0-9a-f-]{36})/volumes/kubernetes\.io~csi/[^/]+/mount$ matches, with this pod. */
  ghost predicate Matches(path: string, pod: string) {
    exists front, name :: MatchesWith(path, pod, front, name)
  }

  ghost predicate MatchesWith(path: string, pod: string, front: string, name: string) {
    PodUid(pod) && name != "" && Free(name, '/') && path == front + PODS + pod + VOLUMES + name + MOUNT
  }

  lemma PodOfMatches(path: string, pod: string)
    requires PodOf(path) == Some(pod)
    ensures Matches(path, pod)
  {
    var named := Before(path, MOUNT);
    var name := AfterSlash(named);
    var volumes := named[..|named| - |name|];
    var p := Before(volumes, VOLUMES);
    var front := Before(p[..|p| - UID_LENGTH], PODS);
    assert p == front + PODS + pod;
    assert volumes == p + VOLUMES;
    assert named == volumes + name;
    assert path == named + MOUNT;
    assert MatchesWith(path, pod, front, name);
  }

  lemma MatchesPodOf(path: string, pod: string, front: string, name: string)
    requires MatchesWith(path, pod, front, name)
    ensures PodOf(path) == Some(pod)
  {
    var p := front + PODS + pod;
    var named := p + VOLUMES + name;
    assert path == named + MOUNT;
    assert Before(path, MOUNT) == named;
    var dir := p + VOLUMES[..|VOLUMES| - 1];
    assert VOLUMES == VOLUMES[..|VOLUMES| - 1] + "/";
    assert named == dir + "/" + name;
    AfterSlashAppend(dir, name);
    assert named[..|named| - |name|] == p + VOLUMES;
    assert Before(p + VOLUMES, VOLUMES) == p;
    assert p[|p| - UID_LENGTH..] == pod;
    assert p[..|p| - UID_LENGTH] == front + PODS;
  }

  datatype PublishTarget = PublishTarget(pod: string, path: string)

  predicate IsTarget(r: Row, majorMinor: string, t: PublishTarget) {
    r.majorMinor == majorMinor && r.mountPoint == t.path && PodOf(t.path) == Some(t.pod)
  }

  /** `t` is a pod volume mount on the device. */
  predicate TargetIn(rows: seq<Row>, majorMinor: string, t: PublishTarget) {
    exists i :: 0 <= i < |rows| && IsTarget(rows[i], majorMinor, t)
  }

  /** PublishTargets: exactly the pod volume mounts on the device. */
  method PublishTargets(rows: seq<Row>, majorMinor: string) returns (targets: seq<PublishTarget>)
    ensures forall t :: t in targets <==> TargetIn(rows, majorMinor, t)
  {
    targets := [];
    for i := 0 to |rows|
      invariant forall t :: t in targets <==> TargetIn(rows[..i], majorMinor, t)
    {
      TargetsGrow(rows, majorMinor, i);
      if rows[i].majorMinor == majorMinor {
        var pod := PodOf(rows[i].mountPoint);
        if pod.Some? {
          targets := targets + [PublishTarget(pod.value, rows[i].mountPoint)];
        }
      }
    }
    assert rows[..|rows|] == rows;
  }

  lemma TargetsGrow(rows: seq<Row>, majorMinor: string, i: nat)
    requires i < |rows|
    ensures forall t :: TargetIn(rows[..i + 1], majorMinor, t) <==>
            TargetIn(rows[..i], majorMinor, t) || IsTarget(rows[i], majorMinor, t)
  {
    var less, more := rows[..i], rows[..i + 1];
    assert more == less + [rows[i]];
    forall t: PublishTarget
      ensures TargetIn(more, majorMinor, t) <==> TargetIn(less, majorMinor, t) || IsTarget(rows[i], majorMinor, t)
    {
      if TargetIn(less, majorMinor, t) {
        var j :| 0 <= j < i && IsTarget(less[j], majorMinor, t);
        assert IsTarget(more[j], majorMinor, t);
      }
      if IsTarget(rows[i], majorMinor, t) {
        assert IsTarget(more[i], majorMinor, t);
      }
      if TargetIn(more, majorMinor, t) {
        var j :| 0 <= j < i + 1 && IsTarget(more[j], majorMinor, t);
        assert j < i ==> IsTarget(less[j], majorMinor, t);
      }
    }
  }
}
