/**
 pkg/store/parse.go and the parameter half of pkg/driver/encryption.go: how
 StorageClass parameters become a backing-store configuration and a cipher
 format, how the controller writes them into a volume's context, and how the
 node reads them back.
 */
module StoreConfig {
  import opened Text
  import opened Paths

  type Params = map<string, string>

  const PARAM_TYPE := "backingStore.type"
  const PARAM_SERVER := "backingStore.nfs.server"
  const PARAM_PATH := "backingStore.nfs.path"
  const PARAM_OPTIONS := "backingStore.nfs.mountOptions"
  const PARAM_SUBDIR := "backingStore.nfs.subDir"
  const PARAM_LOCAL_PATH := "backingStore.local.path"
  const PARAM_LOCAL_SHARED := "backingStore.local.shared"
  const CONTEXT_STORE_ID := "storeID"
  const PVC_NAME := "csi.storage.k8s.io/pvc/name"
  const PVC_NAMESPACE := "csi.storage.k8s.io/pvc/namespace"
  const PV_NAME := "csi.storage.k8s.io/pv/name"
  const TMPL_PVC_NAME := "${pvc.name}"
  const TMPL_PVC_NAMESPACE := "${pvc.namespace}"
  const TMPL_PV_NAME := "${pv.name}"
  const PARAM_ENCRYPTED := "encrypted"
  const PARAM_CIPHER := "encryption.cipher"
  const PARAM_KEY_SIZE := "encryption.keySize"

  datatype Config =
    | NFS(server: string, path: string, options: string, subDir: string)
    | Local(localPath: string, shared: bool)

  datatype ParseError =
    | TypeMissing | TypeUnknown | ServerMissing | PathMissing | SubDirOnLocal
    | UnresolvedTemplate | ContainsNul | NotRelative | Traverses | NamesNothing
    | BadEncrypted | FormatWithoutEncryption | BadCipher | KeySizeMissing | BadKeySize

  /** A Go map lookup: a missing key reads as the empty string. */
  function Lookup(params: Params, key: string): string {
    if key in params then params[key] else ""
  }

  // --- resolveSubDir ------------------------------------------------------

  /** strings.ReplaceAll for a nonempty token. */
  function ReplaceAll(s: string, token: string, value: string): string
    requires token != ""
    decreases |s|
  {
    if s == "" then ""
    else if HasPrefix(s, token) then value + ReplaceAll(s[|token|..], token, value)
    else [s[0]] + ReplaceAll(s[1..], token, value)
  }

  function Substitute(s: string, token: string, value: string): string
    requires token != ""
  {
    if value != "" then ReplaceAll(s, token, value) else s
  }

  function Substituted(raw: string, params: Params): string {
    var a := Substitute(raw, TMPL_PVC_NAMESPACE, Lookup(params, PVC_NAMESPACE));
    var b := Substitute(a, TMPL_PVC_NAME, Lookup(params, PVC_NAME));
    Substitute(b, TMPL_PV_NAME, Lookup(params, PV_NAME))
  }

  /** "${" at position `i`. */
  predicate TemplateAt(s: string, i: int) {
    0 <= i < |s| - 1 && s[i] == '$' && s[i + 1] == '{'
  }

  predicate NoTemplate(s: string) {
    forall i :: 0 <= i < |s| - 1 ==> !TemplateAt(s, i)
  }

  /** What resolveSubDir returns. */
  function SubDir(raw: string, params: Params): Result<string, ParseError> {
    if raw == "" then Success("")
    else
      var sub := Substituted(raw, params);
      if !NoTemplate(sub) then Failure(UnresolvedTemplate)
      else if !Free(sub, '\0') then Failure(ContainsNul)
      else if HasPrefix(sub, "/") then Failure(NotRelative)
      else if ".." in Split(sub, '/') then Failure(Traverses)
      else if Clean(sub) == "." then Failure(NamesNothing)
      else Success(Clean(sub))
  }

  /** resolveSubDir, with its scan over the segments of the operator's input. */
  method ResolveSubDir(raw: string, params: Params) returns (r: Result<string, ParseError>)
    ensures r == SubDir(raw, params)
  {
    if raw == "" {
      return Success("");
    }
    var sub := raw;
    sub := Substitute(sub, TMPL_PVC_NAMESPACE, Lookup(params, PVC_NAMESPACE));
    sub := Substitute(sub, TMPL_PVC_NAME, Lookup(params, PVC_NAME));
    sub := Substitute(sub, TMPL_PV_NAME, Lookup(params, PV_NAME));
    var i := 0;
    while i < |sub| - 1
      invariant 0 <= i && (i <= |sub| - 1 || sub == "")
      invariant forall j :: 0 <= j < i ==> !TemplateAt(sub, j)
    {
      if TemplateAt(sub, i) {
        return Failure(UnresolvedTemplate);
      }
      i := i + 1;
    }
    if !Free(sub, '\0') {
      return Failure(ContainsNul);
    }
    if HasPrefix(sub, "/") {
      return Failure(NotRelative);
    }
    var segs := Split(sub, '/');
    i := 0;
    while i < |segs|
      invariant 0 <= i <= |segs|
      invariant ".." !in segs[..i]
    {
      if segs[i] == ".." {
        return Failure(Traverses);
      }
      assert segs[..i + 1] == segs[..i] + [segs[i]];
      i := i + 1;
    }
    assert segs[..i] == segs;
    var clean := Clean(sub);
    if clean == "." {
      return Failure(NamesNothing);
    }
    return Success(clean);
  }

  // --- what resolveSubDir guarantees ----------------------------------------

  function Kept(segs: seq<string>): (kept: seq<string>)
    ensures forall s :: s in kept ==> s in segs && s != "" && s != "."
  {
    if segs == [] then []
    else (if segs[0] == "" || segs[0] == "." then [] else [segs[0]]) + Kept(segs[1..])
  }

  /** Without "..", path.Clean just drops empty and dot segments. */
  lemma {:induction false} CleanDrops(out: seq<string>, segs: seq<string>)
    requires ".." !in segs
    ensures CleanOnto(out, segs, false) == out + Kept(segs)
    decreases segs
  {
    if segs != [] {
      var s := segs[0];
      assert s in segs && ".." !in segs[1..];
      if s == "" || s == "." {
        CleanDrops(out, segs[1..]);
      } else {
        CleanDrops(out + [s], segs[1..]);
        assert out + [s] + Kept(segs[1..]) == out + ([s] + Kept(segs[1..]));
      }
    }
  }

  lemma KeptArePlain(sub: string)
    requires ".." !in Split(sub, '/')
    ensures AllPlain(Kept(Split(sub, '/')))
  {
    var segs := Split(sub, '/');
    var kept := Kept(segs);
    forall i | 0 <= i < |kept| ensures Plain(kept[i]) {
      assert kept[i] in kept;
      assert kept[i] in segs;
    }
  }

  /** Tokens start with "${", so there is nothing to replace without one. */
  lemma {:induction false} NothingToReplace(s: string, token: string, value: string)
    requires NoTemplate(s) && HasPrefix(token, "${")
    ensures ReplaceAll(s, token, value) == s
    decreases |s|
  {
    if s != "" {
      if HasPrefix(s, token) {
        assert s[..|token|][0] == token[0] && s[..|token|][1] == token[1];
        assert token[..2][0] == '$' && token[..2][1] == '{';
        assert TemplateAt(s, 0);
      } else {
        assert forall i :: TemplateAt(s[1..], i) ==> TemplateAt(s, i + 1);
        NothingToReplace(s[1..], token, value);
      }
    }
  }

  lemma SubstitutedFixed(s: string, params: Params)
    requires NoTemplate(s)
    ensures Substituted(s, params) == s
  {
    NothingToReplace(s, TMPL_PVC_NAMESPACE, Lookup(params, PVC_NAMESPACE));
    NothingToReplace(s, TMPL_PVC_NAME, Lookup(params, PVC_NAME));
    NothingToReplace(s, TMPL_PV_NAME, Lookup(params, PV_NAME));
  }

  /** No segment of a string without "${" or NUL has one. */
  lemma {:induction false} SegmentsInherit(s: string)
    requires NoTemplate(s) && Free(s, '\0')
    ensures forall p :: p in Split(s, '/') ==> NoTemplate(p) && Free(p, '\0')
  {
    if s != "" {
      var rest := Split(s[1..], '/');
      assert forall i :: TemplateAt(s[1..], i) ==> TemplateAt(s, i + 1);
      SegmentsInherit(s[1..]);
      assert rest[0] in rest;
      if s[0] != '/' {
        var first := [s[0]] + rest[0];
        assert Free(first, '\0');
        assert NoTemplate(first) by {
          if TemplateAt(first, 0) {
            assert s[1..] != "" && s[1..][0] == rest[0][0];
            assert TemplateAt(s, 0);
          }
          assert forall i :: 0 < i && TemplateAt(first, i) ==> TemplateAt(rest[0], i - 1);
        }
        forall p | p in Split(s, '/') ensures NoTemplate(p) && Free(p, '\0') {
          assert p == first || p in rest[1..];
        }
      }
    }
  }

  lemma {:induction false} JoinInherits(segs: seq<string>)
    requires forall p :: p in segs ==> NoTemplate(p) && Free(p, '\0')
    ensures NoTemplate(Join(segs, '/')) && Free(Join(segs, '/'), '\0')
    decreases segs
  {
    if |segs| > 1 {
      JoinInherits(segs[1..]);
      var head, tail := segs[0], Join(segs[1..], '/');
      var s := head + ['/'] + tail;
      assert head in segs;
      forall i | 0 <= i < |s| - 1 ensures !TemplateAt(s, i) {
        if TemplateAt(s, i) {
          if i + 1 < |head| {
            assert TemplateAt(head, i);
          } else if i > |head| {
            assert TemplateAt(tail, i - |head| - 1);
          }
        }
      }
    } else if |segs| == 1 {
      assert segs[0] in segs;
    }
  }

  /** A relative, clean path that stays strictly below the mount. */
  predicate Below(sub: string) {
    sub != "" && AllPlain(Split(sub, '/')) && NoTemplate(sub) && Free(sub, '\0')
  }

  /** Whatever resolveSubDir accepts stays strictly below the mount. */
  lemma AcceptedIsBelow(raw: string, params: Params)
    requires raw != "" && SubDir(raw, params).Success?
    ensures Below(SubDir(raw, params).value)
  {
    var sub := Substituted(raw, params);
    var segs := Split(sub, '/');
    var kept := Kept(segs);
    CleanDrops([], segs);
    assert [] + kept == kept;
    KeptArePlain(sub);
    SegmentsInherit(sub);
    assert kept != [] && Clean(sub) == Join(kept, '/');
    JoinInherits(kept);
    forall i | 0 <= i < |kept| ensures Free(kept[i], '/') {
      assert Plain(kept[i]);
    }
    SplitJoin(kept, '/');
    assert Plain(kept[0]);
  }

  /** resolveSubDir leaves such a path alone, whatever the parameters say. */
  lemma BelowIsFixed(sub: string, params: Params)
    requires Below(sub)
    ensures SubDir(sub, params) == Success(sub)
  {
    SubstitutedFixed(sub, params);
    var segs := Split(sub, '/');
    assert ".." !in segs;
    assert Plain(segs[0]);
    CleanOntoPlain([], segs, false);
    assert [] + segs == segs;
    JoinSplit(sub, '/');
    SplitHead(".", '/', "");
  }

  /** resolveSubDir is idempotent. */
  lemma ResolveTwice(raw: string, params: Params, later: Params)
    requires SubDir(raw, params).Success?
    ensures SubDir(SubDir(raw, params).value, later) == SubDir(raw, params)
  {
    if raw != "" {
      AcceptedIsBelow(raw, params);
      BelowIsFixed(SubDir(raw, params).value, later);
    }
  }

  // --- ConfigFromParams -----------------------------------------------------

  function ConfigFromParams(params: Params): Result<Config, ParseError> {
    var t := Lookup(params, PARAM_TYPE);
    if t == "nfs" then
      if Lookup(params, PARAM_SERVER) == "" then Failure(ServerMissing)
      else if Lookup(params, PARAM_PATH) == "" then Failure(PathMissing)
      else
        match SubDir(Lookup(params, PARAM_SUBDIR), params)
        case Failure(e) => Failure(e)
        case Success(sub) =>
          Success(NFS(Lookup(params, PARAM_SERVER), Lookup(params, PARAM_PATH), Lookup(params, PARAM_OPTIONS), sub))
    else if t == "local" then
      if Lookup(params, PARAM_LOCAL_PATH) == "" then Failure(PathMissing)
      else if Lookup(params, PARAM_SUBDIR) != "" then Failure(SubDirOnLocal)
      else Success(Local(Lookup(params, PARAM_LOCAL_PATH), Lookup(params, PARAM_LOCAL_SHARED) == "true"))
    else if t == "" then Failure(TypeMissing)
    else Failure(TypeUnknown)
  }

  /** One context entry, left out when there is nothing to say. */
  function IfSet(key: string, value: string): Params {
    if value != "" then map[key := value] else map[]
  }

  /** ToVolumeContext; the store ID is only there for people to read. */
  function ToVolumeContext(c: Config, storeId: string): Params {
    match c
    case NFS(server, path, options, subDir) =>
      map[PARAM_TYPE := "nfs", CONTEXT_STORE_ID := storeId, PARAM_SERVER := server, PARAM_PATH := path] +
      IfSet(PARAM_OPTIONS, options) + IfSet(PARAM_SUBDIR, subDir)
    case Local(path, shared) =>
      map[PARAM_TYPE := "local", CONTEXT_STORE_ID := storeId, PARAM_LOCAL_PATH := path] +
      IfSet(PARAM_LOCAL_SHARED, if shared then "true" else "")
  }

  const STORE_KEYS: set<string> := {
    PARAM_TYPE, PARAM_SERVER, PARAM_PATH, PARAM_OPTIONS, PARAM_SUBDIR, PARAM_LOCAL_PATH, PARAM_LOCAL_SHARED}

  /** The two maps say the same about the backing store. */
  predicate AgreeOnStore(a: Params, b: Params) {
    forall key :: key in STORE_KEYS ==> Lookup(a, key) == Lookup(b, key)
  }

  /**
   Parsing the context of a volume gives back the configuration it was made
   with, whatever else the context has picked up on the way to the node.
   */
  lemma ConfigRoundTrip(params: Params, c: Config, storeId: string, context: Params)
    requires ConfigFromParams(params) == Success(c)
    requires AgreeOnStore(context, ToVolumeContext(c, storeId))
    ensures ConfigFromParams(context) == Success(c)
  {
    var vc := ToVolumeContext(c, storeId);
    assert forall key :: key in STORE_KEYS ==> Lookup(context, key) == Lookup(vc, key);
    assert Lookup(context, PARAM_TYPE) == Lookup(vc, PARAM_TYPE);
    match c
    case NFS(server, path, options, subDir) =>
      assert Lookup(context, PARAM_SERVER) == server && Lookup(context, PARAM_PATH) == path;
      assert Lookup(context, PARAM_OPTIONS) == options;
      assert Lookup(context, PARAM_SUBDIR) == subDir;
      ResolveTwice(Lookup(params, PARAM_SUBDIR), params, context);
    case Local(path, shared) =>
      assert Lookup(context, PARAM_LOCAL_PATH) == path;
      assert Lookup(context, PARAM_SUBDIR) == "";
      assert Lookup(context, PARAM_LOCAL_SHARED) == if shared then "true" else "";
  }

  // --- the cipher format ------------------------------------------------------

  /** What luksFormat is told about the cipher. */
  datatype Format = Format(cipher: string, keySize: int)

  const DEFAULT_FORMAT := Format("aes-xts-plain64", 512)

  function EncryptedFromParams(params: Params): Result<bool, ParseError> {
    var v := Lookup(params, PARAM_ENCRYPTED);
    if v == "" || v == "false" then Success(false)
    else if v == "true" then Success(true)
    else Failure(BadEncrypted)
  }

  predicate LowerOrDigit(c: char) {
    'a' <= c <= 'z' || '0' <= c <= '9'
  }

  /** The regular expression ^[a-z0-9][a-z0-9:,()_-]*$. */
  predicate CipherSpec(s: string) {
    s != "" && LowerOrDigit(s[0]) && forall i :: 0 <= i < |s| ==> LowerOrDigit(s[i]) || s[i] in ":,()_-"
  }

  function DigitsValue(s: string): (n: nat)
    requires forall i :: 0 <= i < |s| ==> '0' <= s[i] <= '9'
  {
    if s == "" then 0 else DigitsValue(s[..|s| - 1]) * 10 + (s[|s| - 1] as int - '0' as int)
  }

  /** strconv.Atoi on a 64-bit machine. */
  function Atoi(s: string): Option<int> {
    var digits := if s != "" && (s[0] == '+' || s[0] == '-') then s[1..] else s;
    if digits == "" || exists i :: 0 <= i < |digits| && !('0' <= digits[i] <= '9') then None
    else
      var n: int := if s[0] == '-' then -(DigitsValue(digits) as int) else DigitsValue(digits);
      if -0x8000_0000_0000_0000 <= n < 0x8000_0000_0000_0000 then Some(n) else None
  }

  function FormatFromParams(params: Params, encrypted: bool): Result<Format, ParseError> {
    var cipher, keySize := Lookup(params, PARAM_CIPHER), Lookup(params, PARAM_KEY_SIZE);
    if cipher == "" && keySize == "" then Success(DEFAULT_FORMAT)
    else if !encrypted then Failure(FormatWithoutEncryption)
    else if cipher != "" && !CipherSpec(cipher) then Failure(BadCipher)
    else if cipher != "" && keySize == "" then Failure(KeySizeMissing)
    else
      var n := Atoi(keySize);
      if n == None || n.value <= 0 || n.value % 8 != 0 then Failure(BadKeySize)
      else Success(Format(if cipher != "" then cipher else DEFAULT_FORMAT.cipher, n.value))
  }

  /** The context CreateVolume returns: the store, and the cipher when there is one. */
  function VolumeContext(c: Config, storeId: string, encrypted: bool, params: Params): Params {
    var vc := ToVolumeContext(c, storeId);
    if encrypted then
      vc + map[PARAM_ENCRYPTED := "true"] + IfSet(PARAM_CIPHER, Lookup(params, PARAM_CIPHER)) +
      IfSet(PARAM_KEY_SIZE, Lookup(params, PARAM_KEY_SIZE))
    else vc
  }

  /** ToVolumeContext, filling the map entry by entry. */
  method WriteStoreContext(c: Config, storeId: string) returns (vc: Params)
    ensures vc == ToVolumeContext(c, storeId)
  {
    vc := map[PARAM_TYPE := if c.NFS? then "nfs" else "local", CONTEXT_STORE_ID := storeId];
    match c
    case NFS(server, path, options, subDir) =>
      vc := vc[PARAM_SERVER := server][PARAM_PATH := path];
      if options != "" {
        vc := vc[PARAM_OPTIONS := options];
      }
      if subDir != "" {
        vc := vc[PARAM_SUBDIR := subDir];
      }
    case Local(path, shared) =>
      vc := vc[PARAM_LOCAL_PATH := path];
      if shared {
        vc := vc[PARAM_LOCAL_SHARED := "true"];
      }
  }

  /** What CreateVolume demands of the parameters before it does anything. */
  predicate Acceptable(params: Params) {
    && ConfigFromParams(params).Success?
    && EncryptedFromParams(params).Success?
    && FormatFromParams(params, EncryptedFromParams(params).value).Success?
  }

  /**
   End to end: from the context CreateVolume returns, the node reads the store,
   the encryption choice and the cipher format the StorageClass asked for.
   */
  lemma ContextRoundTrip(params: Params, storeId: string)
    requires Acceptable(params)
    ensures var c, encrypted := ConfigFromParams(params).value, EncryptedFromParams(params).value;
            var vc := VolumeContext(c, storeId, encrypted, params);
            && ConfigFromParams(vc) == Success(c)
            && EncryptedFromParams(vc) == Success(encrypted)
            && FormatFromParams(vc, encrypted) == FormatFromParams(params, encrypted)
  {
    var c, encrypted := ConfigFromParams(params).value, EncryptedFromParams(params).value;
    var vc := VolumeContext(c, storeId, encrypted, params);
    CipherLeavesStore(c, storeId, encrypted, params);
    ConfigRoundTrip(params, c, storeId, vc);
    CipherInContext(c, storeId, encrypted, params);
  }

  lemma CipherLeavesStore(c: Config, storeId: string, encrypted: bool, params: Params)
    ensures AgreeOnStore(VolumeContext(c, storeId, encrypted, params), ToVolumeContext(c, storeId))
  {
    ContextKeysApart();
  }

  lemma CipherInContext(c: Config, storeId: string, encrypted: bool, params: Params)
    ensures var vc := VolumeContext(c, storeId, encrypted, params);
            && Lookup(vc, PARAM_ENCRYPTED) == (if encrypted then "true" else "")
            && Lookup(vc, PARAM_CIPHER) == (if encrypted then Lookup(params, PARAM_CIPHER) else "")
            && Lookup(vc, PARAM_KEY_SIZE) == (if encrypted then Lookup(params, PARAM_KEY_SIZE) else "")
  {
    ContextKeysApart();
    var vc := ToVolumeContext(c, storeId);
    assert vc.Keys <= STORE_KEYS + {CONTEXT_STORE_ID};
    assert PARAM_ENCRYPTED !in vc && PARAM_CIPHER !in vc && PARAM_KEY_SIZE !in vc;
  }

  lemma ContextKeysApart()
    ensures {PARAM_ENCRYPTED, PARAM_CIPHER, PARAM_KEY_SIZE} !! STORE_KEYS + {CONTEXT_STORE_ID}
    ensures PARAM_ENCRYPTED != PARAM_CIPHER && PARAM_ENCRYPTED != PARAM_KEY_SIZE && PARAM_CIPHER != PARAM_KEY_SIZE
  {
    assert PARAM_ENCRYPTED[0] == 'e' && PARAM_CIPHER[0] == 'e' && PARAM_KEY_SIZE[0] == 'e';
    assert CONTEXT_STORE_ID[0] == 's';
    assert forall key :: key in STORE_KEYS ==> key[0] == 'b';
    assert |PARAM_ENCRYPTED| == 9 && |PARAM_CIPHER| == 17 && |PARAM_KEY_SIZE| == 18;
  }
}
