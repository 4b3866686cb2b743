/**
 pkg/store/store.go and the volume IDs of pkg/driver/controller.go: canonical keys
 of mounts and stores, and what it takes for two of them to be the same.
 */
module Identity {
  import opened Text
  import opened Paths
  import opened StoreConfig

  // --- sort.Strings --------------------------------------------------------------

  /** Lexicographic order. */
  predicate NotAfter(a: string, b: string) {
    a == "" || (b != "" && (a[0] < b[0] || (a[0] == b[0] && NotAfter(a[1..], b[1..]))))
  }

  lemma {:induction false} NotAfterTotal(a: string, b: string)
    ensures NotAfter(a, b) || NotAfter(b, a)
    ensures NotAfter(a, b) && NotAfter(b, a) ==> a == b
  {
    if a != "" && b != "" {
      NotAfterTotal(a[1..], b[1..]);
      assert a == [a[0]] + a[1..] && b == [b[0]] + b[1..];
    }
  }

  lemma {:induction false} NotAfterTransitive(a: string, b: string, c: string)
    requires NotAfter(a, b) && NotAfter(b, c)
    ensures NotAfter(a, c)
  {
    if a != "" && a[0] == b[0] == c[0] {
      NotAfterTransitive(a[1..], b[1..], c[1..]);
    }
  }

  predicate Sorted(s: seq<string>) {
    forall i, j :: 0 <= i < j < |s| ==> NotAfter(s[i], s[j])
  }

  function Insert(x: string, s: seq<string>): seq<string> {
    if s == [] || NotAfter(x, s[0]) then [x] + s else [s[0]] + Insert(x, s[1..])
  }

  /** What sort.Strings leaves in the slice. */
  function SortStrings(s: seq<string>): seq<string> {
    if s == [] then [] else Insert(s[0], SortStrings(s[1..]))
  }

  lemma {:induction false} InsertKeepsBound(y: string, x: string, s: seq<string>)
    requires NotAfter(y, x) && forall i :: 0 <= i < |s| ==> NotAfter(y, s[i])
    ensures forall i :: 0 <= i < |Insert(x, s)| ==> NotAfter(y, Insert(x, s)[i])
  {
    if s != [] && !NotAfter(x, s[0]) {
      InsertKeepsBound(y, x, s[1..]);
    }
  }

  lemma {:induction false} InsertCounts(x: string, s: seq<string>)
    ensures multiset(Insert(x, s)) == multiset(s) + multiset{x}
  {
    if s != [] && !NotAfter(x, s[0]) {
      InsertCounts(x, s[1..]);
      assert s == [s[0]] + s[1..];
    }
  }

  lemma {:induction false} InsertSorts(x: string, s: seq<string>)
    requires Sorted(s)
    ensures Sorted(Insert(x, s))
  {
    if s != [] && !NotAfter(x, s[0]) {
      InsertSorts(x, s[1..]);
      NotAfterTotal(x, s[0]);
      InsertKeepsBound(s[0], x, s[1..]);
    } else if s != [] {
      forall i | 0 <= i < |s| ensures NotAfter(x, s[i]) {
        if i > 0 {
          NotAfterTransitive(x, s[0], s[i]);
        }
      }
    }
  }

  lemma {:induction false} SortStringsSorts(s: seq<string>)
    ensures Sorted(SortStrings(s)) && multiset(SortStrings(s)) == multiset(s)
  {
    if s != [] {
      SortStringsSorts(s[1..]);
      InsertSorts(s[0], SortStrings(s[1..]));
      InsertCounts(s[0], SortStrings(s[1..]));
      assert s == [s[0]] + s[1..];
    }
  }

  /** A multiset has one sorted order. */
  lemma {:induction false} SortedOnce(a: seq<string>, b: seq<string>)
    requires Sorted(a) && Sorted(b) && multiset(a) == multiset(b)
    ensures a == b
  {
    if a == [] {
      assert |multiset(b)| == 0;
    } else {
      assert |multiset(a)| == |a| && |multiset(b)| == |b|;
      assert a[0] in multiset(b) && b[0] in multiset(a);
      NotAfterTotal(a[0], a[0]);
      NotAfterTotal(a[0], b[0]);
      assert a == [a[0]] + a[1..] && b == [b[0]] + b[1..];
      assert multiset(a[1..]) == multiset(a) - multiset{a[0]};
      SortedOnce(a[1..], b[1..]);
    }
  }

  // --- canonicalOptions ---------------------------------------------------------------

  /** unicode.IsSpace. */
  predicate IsSpace(c: char) {
    var n := c as int;
    9 <= n <= 13 || n in {32, 0x85, 0xA0, 0x1680, 0x2028, 0x2029, 0x202F, 0x205F, 0x3000} || 0x2000 <= n <= 0x200A
  }

  function TrimLeft(s: string): string {
    if s != "" && IsSpace(s[0]) then TrimLeft(s[1..]) else s
  }

  function TrimRight(s: string): string {
    if s != "" && IsSpace(s[|s| - 1]) then TrimRight(s[..|s| - 1]) else s
  }

  /** strings.TrimSpace. */
  function TrimSpace(s: string): string {
    TrimRight(TrimLeft(s))
  }

  /** The nonempty trimmed options, in order. */
  function Cleaned(parts: seq<string>): seq<string> {
    if parts == [] then []
    else
      var rest, p := Cleaned(parts[..|parts| - 1]), TrimSpace(parts[|parts| - 1]);
      if p == "" then rest else rest + [p]
  }

  function Options(opts: string): seq<string> {
    Cleaned(Split(opts, ','))
  }

  function CanonicalOptions(opts: string): string {
    Join(SortStrings(Options(opts)), ',')
  }

  /** canonicalOptions: the kept options overwrite the slice from its start as the loop reads it. */
  method Canonicalize(opts: string) returns (r: string)
    ensures r == CanonicalOptions(opts)
  {
    var split := Split(opts, ',');
    var parts := new string[|split|](i requires 0 <= i < |split| => split[i]);
    var kept := Filter(parts, split);
    var cleaned := SortStrings(parts[..kept]);
    r := Join(cleaned, ',');
  }

  /** The filter works in place: the parts that stay move to the front. */
  method Filter(parts: array<string>, split: seq<string>) returns (kept: nat)
    requires parts[..] == split
    modifies parts
    ensures kept <= parts.Length && parts[..kept] == Cleaned(split)
  {
    kept := 0;
    for i := 0 to |split|
      invariant 0 <= kept <= i
      invariant parts[..kept] == Cleaned(split[..i])
      invariant forall j :: i <= j < |split| ==> parts[j] == split[j]
    {
      assert split[..i + 1][..i] == split[..i];
      ghost var before := parts[..kept];
      var p := TrimSpace(parts[i]);
      if p != "" {
        parts[kept] := p;
        kept := kept + 1;
        assert parts[..kept] == before + [p];
      }
    }
    assert split[..|split|] == split;
  }

  lemma {:induction false} TrimInherits(s: string, c: char)
    requires Free(s, c)
    ensures Free(TrimLeft(s), c) && Free(TrimRight(s), c)
  {
    if s != "" {
      TrimInherits(s[1..], c);
      TrimInherits(s[..|s| - 1], c);
    }
  }

  lemma {:induction false} CleanedInherits(parts: seq<string>, c: char)
    requires AllFree(parts, c)
    ensures AllFree(Cleaned(parts), c)
    ensures forall i :: 0 <= i < |Cleaned(parts)| ==> Cleaned(parts)[i] != ""
  {
    if parts != [] {
      CleanedInherits(parts[..|parts| - 1], c);
      TrimInherits(parts[|parts| - 1], c);
      TrimInherits(TrimLeft(parts[|parts| - 1]), c);
    }
  }

  lemma {:induction false} SplitInherits(s: string, c: char, d: char)
    requires Free(s, d)
    ensures AllFree(Split(s, c), d)
  {
    if s != "" {
      SplitInherits(s[1..], c, d);
    }
  }

  lemma {:induction false} JoinKeepsFree(parts: seq<string>, c: char, d: char)
    requires AllFree(parts, d) && c != d
    ensures Free(Join(parts, c), d)
  {
    if |parts| > 1 {
      JoinKeepsFree(parts[1..], c, d);
    }
  }

  lemma SameElements(s: seq<string>, t: seq<string>, c: char)
    requires multiset(s) == multiset(t) && AllFree(s, c) && forall i :: 0 <= i < |s| ==> s[i] != ""
    ensures AllFree(t, c) && forall i :: 0 <= i < |t| ==> t[i] != ""
  {
    forall i | 0 <= i < |t| ensures Free(t[i], c) && t[i] != "" {
      assert t[i] in multiset(t);
      assert t[i] in s;
    }
  }

  /** A list of nonempty separator-free parts can be read back from its join. */
  lemma JoinOnce(a: seq<string>, b: seq<string>, c: char)
    requires AllFree(a, c) && AllFree(b, c) && Join(a, c) == Join(b, c)
    requires forall i :: 0 <= i < |a| ==> a[i] != ""
    requires forall i :: 0 <= i < |b| ==> b[i] != ""
    ensures a == b
  {
    if a != [] {
      SplitJoin(a, c);
      SplitHead("", c, "");
    }
    if b != [] {
      SplitJoin(b, c);
      SplitHead("", c, "");
    }
  }

  /** Canonical options are equal exactly when the trimmed nonempty options agree as a multiset. */
  lemma CanonicalExactly(a: string, b: string)
    ensures CanonicalOptions(a) == CanonicalOptions(b) <==> multiset(Options(a)) == multiset(Options(b))
  {
    var s, t := SortStrings(Options(a)), SortStrings(Options(b));
    SortStringsSorts(Options(a));
    SortStringsSorts(Options(b));
    if multiset(Options(a)) == multiset(Options(b)) {
      SortedOnce(s, t);
    }
    if CanonicalOptions(a) == CanonicalOptions(b) {
      CleanedInherits(Split(a, ','), ',');
      CleanedInherits(Split(b, ','), ',');
      SameElements(Options(a), s, ',');
      SameElements(Options(b), t, ',');
      JoinOnce(s, t, ',');
    }
  }

  lemma CanonicalFree(opts: string, c: char)
    requires Free(opts, c) && c != ','
    ensures Free(CanonicalOptions(opts), c)
  {
    SplitInherits(opts, ',', c);
    CleanedInherits(Split(opts, ','), c);
    SortStringsSorts(Options(opts));
    SameElements(Options(opts), SortStrings(Options(opts)), c);
    JoinKeepsFree(SortStrings(Options(opts)), ',', c);
  }

  // --- keys -----------------------------------------------------------------------------

  function MountKey(c: Config): string {
    match c
    case NFS(server, path, options, _) => Join(["nfs", server, path, CanonicalOptions(options)], '|')
    case Local(path, _) => Join(["local", path], '|')
  }

  function StoreKey(c: Config): string {
    if c.NFS? && c.subDir != "" then MountKey(c) + "|" + c.subDir else MountKey(c)
  }

  /** No field that goes into the mount key holds its separator. */
  predicate Barless(c: Config) {
    c.NFS? && Free(c.server, '|') && Free(c.path, '|') && Free(c.options, '|')
  }

  function Fields(c: Config): seq<string>
    requires c.NFS?
  {
    ["nfs", c.server, c.path, CanonicalOptions(c.options)]
  }

  /** The fields can be read back from a mount key, and the subDir behind them. */
  lemma KeySplits(c: Config, tail: string)
    requires Barless(c)
    ensures Split(MountKey(c), '|') == Fields(c)
    ensures Split(MountKey(c) + "|" + tail, '|') == Fields(c) + Split(tail, '|')
  {
    CanonicalFree(c.options, '|');
    var f := Fields(c);
    assert AllFree(f, '|');
    SplitJoin(f, '|');
    SplitAfter(f, '|', tail);
  }

  lemma SplitAfter(parts: seq<string>, c: char, tail: string)
    requires |parts| >= 1 && AllFree(parts, c)
    ensures Split(Join(parts, c) + [c] + tail, c) == parts + Split(tail, c)
  {
    JoinAppend(parts, Split(tail, c), c);
    JoinSplit(tail, c);
    SplitJoin(parts + Split(tail, c), c);
  }

  lemma {:induction false} JoinAppend(a: seq<string>, b: seq<string>, c: char)
    requires |a| >= 1 && |b| >= 1
    ensures Join(a + b, c) == Join(a, c) + [c] + Join(b, c)
  {
    assert (a + b)[1..] == a[1..] + b;
    if |a| > 1 {
      JoinAppend(a[1..], b, c);
    } else {
      assert a[1..] + b == b;
    }
  }

  /** Two mounts are one exactly when server, path and the multiset of options agree. */
  lemma SameMountExactly(a: Config, b: Config)
    requires Barless(a) && Barless(b)
    ensures MountKey(a) == MountKey(b) <==>
            a.server == b.server && a.path == b.path && multiset(Options(a.options)) == multiset(Options(b.options))
  {
    KeySplits(a, "");
    KeySplits(b, "");
    CanonicalExactly(a.options, b.options);
    assert Fields(a)[1] == a.server && Fields(a)[2] == a.path && Fields(a)[3] == CanonicalOptions(a.options);
    assert Fields(b)[1] == b.server && Fields(b)[2] == b.path && Fields(b)[3] == CanonicalOptions(b.options);
  }

  /** Two stores are one exactly when their mounts are and their subDirs are. */
  lemma SameStoreExactly(a: Config, b: Config)
    requires Barless(a) && Barless(b)
    ensures StoreKey(a) == StoreKey(b) <==> MountKey(a) == MountKey(b) && a.subDir == b.subDir
  {
    KeySplits(a, a.subDir);
    KeySplits(b, b.subDir);
    JoinSplit(a.subDir, '|');
    JoinSplit(b.subDir, '|');
    JoinSplit(MountKey(a), '|');
    JoinSplit(MountKey(b), '|');
    if StoreKey(a) == StoreKey(b) {
      var sa, sb := Split(StoreKey(a), '|'), Split(StoreKey(b), '|');
      assert sa[..4] == Fields(a) && sb[..4] == Fields(b);
      assert a.subDir != "" ==> sa[4..] == Split(a.subDir, '|');
      assert b.subDir != "" ==> sb[4..] == Split(b.subDir, '|');
    }
  }

  lemma JoinCons(h: string, t: seq<string>, c: char)
    requires |t| >= 1
    ensures Join([h] + t, c) == h + [c] + Join(t, c)
  {
    assert ([h] + t)[1..] == t;
  }

  lemma NfsIsNotLocal(a: Config, b: Config)
    requires Barless(a) && b.Local?
    ensures StoreKey(a) != StoreKey(b)
  {
    KeySplits(a, a.subDir);
    SplitHead("local", '|', b.localPath);
    JoinCons("local", [b.localPath], '|');
    assert ["local"] + [b.localPath] == ["local", b.localPath];
    assert MountKey(b) == "local" + ['|'] + b.localPath;
    assert Split(StoreKey(a), '|')[0] == "nfs";
    assert Split(StoreKey(b), '|')[0] == "local";
  }

  /** With the separator inside a field, different exports can get one key. */
  lemma BarsCollide(x: string, y: string, z: string)
    ensures MountKey(NFS(x + "|" + y, z, "", "")) == MountKey(NFS(x, y + "|" + z, "", ""))
  {
    var o := CanonicalOptions("");
    var a, b := x + "|" + y, y + "|" + z;
    var all := x + ['|'] + y + ['|'] + z + ['|'] + o;
    JoinFields(a, z, o);
    JoinFields(x, b, o);
    assert a + ['|'] + (z + ['|'] + o) == all == x + ['|'] + (b + ['|'] + o);
  }

  lemma JoinFields(server: string, path: string, options: string)
    ensures Join(["nfs", server, path, options], '|') == "nfs" + ['|'] + (server + ['|'] + (path + ['|'] + options))
  {
    assert ["nfs"] + [server, path, options] == ["nfs", server, path, options];
    assert [server] + [path, options] == [server, path, options];
    assert [path] + [options] == [path, options];
    JoinCons("nfs", [server, path, options], '|');
    JoinCons(server, [path, options], '|');
    JoinCons(path, [options], '|');
  }

  // --- volume IDs --------------------------------------------------------------------------

  const STORE_ID_LENGTH: nat := 12

  /** strings.ContainsAny(name, "/\\\x00"). */
  predicate BadName(name: string) {
    !Free(name, '/') || !Free(name, '\\') || !Free(name, '\0')
  }

  function VolumeIdFromName(storeId: string, name: string): Result<string, string> {
    if BadName(name) then Failure("InvalidArgument") else Success("fb-" + storeId + "-" + name)
  }

  function ParseStoreId(volumeId: string): Result<string, string> {
    if !HasPrefix(volumeId, "fb-") then Failure("NotFound")
    else
      var rest := volumeId[3..];
      if |rest| < 13 || rest[12] != '-' then Failure("NotFound") else Success(rest[..12])
  }

  /** The store ID comes back out of every volume ID, whatever the name. */
  lemma StoreIdRoundTrip(storeId: string, name: string)
    requires |storeId| == STORE_ID_LENGTH && !BadName(name)
    ensures ParseStoreId(VolumeIdFromName(storeId, name).value) == Success(storeId)
  {
    var v := "fb-" + storeId + "-" + name;
    assert v[3..] == storeId + "-" + name;
    assert (storeId + "-" + name)[..12] == storeId;
  }

  /** Only strings of that form parse. */
  lemma ParsesExactly(v: string, storeId: string)
    ensures ParseStoreId(v) == Success(storeId) <==>
            |storeId| == STORE_ID_LENGTH && exists name :: v == "fb-" + storeId + "-" + name
  {
    if ParseStoreId(v) == Success(storeId) {
      var rest := v[3..];
      assert v == "fb-" + rest && rest == storeId + "-" + rest[13..];
      assert v == "fb-" + storeId + "-" + rest[13..];
    }
    if |storeId| == STORE_ID_LENGTH && exists name :: v == "fb-" + storeId + "-" + name {
      var name :| v == "fb-" + storeId + "-" + name;
      assert v[3..] == storeId + "-" + name;
      assert v[..3] == "fb-";
      assert v[3..][..12] == storeId;
    }
  }

  /** Volume IDs tell stores and names apart. */
  lemma VolumeIdOnce(s: string, name: string, t: string, other: string)
    requires |s| == |t| == STORE_ID_LENGTH && !BadName(name) && !BadName(other)
    requires VolumeIdFromName(s, name) == VolumeIdFromName(t, other)
    ensures s == t && name == other
  {
    StoreIdRoundTrip(s, name);
    StoreIdRoundTrip(t, other);
    assert ("fb-" + s + "-" + name)[16..] == name;
    assert ("fb-" + t + "-" + other)[16..] == other;
  }
}
