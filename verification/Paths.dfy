/**
 Slash-separated paths: Go's path.Clean and filepath.Base, and the questions
 pkg/loop asks about a loop device's backing file (is it this image, is it an
 NFS silly-rename, is it a volume image seen through a vanished store mount).
 */
module Paths {
  import opened Text

  // --- filepath.Base ---------------------------------------------------

  function StripSlashes(s: string): (r: string)
    ensures r != "" ==> r[|r| - 1] != '/'
    ensures r <= s
  {
    if s != "" && s[|s| - 1] == '/' then StripSlashes(s[..|s| - 1]) else s
  }

  /** What follows the last slash (the whole string when there is none). */
  function AfterSlash(s: string): (r: string)
    ensures Free(r, '/')
    ensures HasSuffix(s, r)
  {
    if s == "" || s[|s| - 1] == '/' then "" else AfterSlash(s[..|s| - 1]) + [s[|s| - 1]]
  }

  function Base(s: string): string {
    if s == "" then "."
    else
      var t := StripSlashes(s);
      if t == "" then "/" else AfterSlash(t)
  }

  lemma {:induction false} AfterSlashAppend(dir: string, name: string)
    requires Free(name, '/')
    ensures AfterSlash(dir + "/" + name) == name
  {
    var s := dir + "/" + name;
    if name == "" {
      assert s[|s| - 1] == '/';
    } else {
      AfterSlashAppend(dir, name[..|name| - 1]);
      assert s[..|s| - 1] == dir + "/" + name[..|name| - 1];
    }
  }

  /** A tail that starts at a slash has the same last component. */
  lemma {:induction false} AfterSlashTail(file: string, tail: string)
    requires HasSuffix(file, tail) && tail != "" && tail[0] == '/'
    ensures AfterSlash(file) == AfterSlash(tail)
  {
    if tail[|tail| - 1] != '/' {
      var f, t := file[..|file| - 1], tail[..|tail| - 1];
      var n := |file| - |tail|;
      assert file[n..] == tail;
      assert forall i :: 0 <= i < |t| ==> f[n + i] == file[n..][i];
      assert f[n..] == t;
      AfterSlashTail(f, t);
    }
  }

  // --- path.Clean ------------------------------------------------------

  /** Segments of `segs` folded onto the already clean `out`, as path.Clean does. */
  function CleanOnto(out: seq<string>, segs: seq<string>, rooted: bool): seq<string>
    decreases segs
  {
    if segs == [] then out
    else
      var s := segs[0];
      var out' :=
        if s == "" || s == "." then out
        else if s == ".." then
          if out != [] && out[|out| - 1] != ".." then out[..|out| - 1]
          else if rooted then out
          else out + [s]
        else out + [s];
      CleanOnto(out', segs[1..], rooted)
  }

  function Clean(p: string): string {
    if p == "" then "."
    else
      var rooted := p[0] == '/';
      var out := CleanOnto([], Split(p, '/'), rooted);
      if rooted then "/" + Join(out, '/')
      else if out == [] then "." else Join(out, '/')
  }

  /** A segment path.Clean leaves alone. */
  predicate Plain(s: string) {
    s != "" && s != "." && s != ".." && Free(s, '/')
  }

  predicate AllPlain(segs: seq<string>) {
    forall i :: 0 <= i < |segs| ==> Plain(segs[i])
  }

  lemma {:induction false} CleanOntoPlain(out: seq<string>, segs: seq<string>, rooted: bool)
    requires AllPlain(segs)
    ensures CleanOnto(out, segs, rooted) == out + segs
    decreases segs
  {
    if segs != [] {
      assert Plain(segs[0]);
      CleanOntoPlain(out + [segs[0]], segs[1..], rooted);
      assert out + [segs[0]] + segs[1..] == out + segs;
    }
  }

  /** An absolute path with no empty, dot or dot-dot segment. */
  predicate CleanAbsolute(p: string) {
    |p| > 1 && p[0] == '/' && AllPlain(Split(p[1..], '/'))
  }

  lemma CleanAbsoluteFixed(p: string)
    requires CleanAbsolute(p)
    ensures Clean(p) == p
  {
    var segs := Split(p[1..], '/');
    SplitHead("", '/', p[1..]);
    assert "" + ['/'] + p[1..] == p;
    assert Split(p, '/') == [""] + segs;
    assert ([""] + segs)[1..] == segs;
    CleanOntoPlain([], segs, true);
    assert [] + segs == segs;
    JoinSplit(p[1..], '/');
  }

  /** Two slashes in a row show up as an empty segment past the first. */
  lemma {:induction false} DoubleSlashSplits(s: string, i: int) returns (j: int)
    requires 0 <= i < |s| - 1 && s[i] == '/' && s[i + 1] == '/'
    ensures 1 <= j < |Split(s, '/')| && Split(s, '/')[j] == ""
  {
    var rest := Split(s[1..], '/');
    if i == 0 {
      j := 1;
      assert s[1..][0] == '/' && rest[0] == "";
    } else {
      j := DoubleSlashSplits(s[1..], i - 1);
      if s[0] == '/' {
        assert ([""] + rest)[j + 1] == rest[j];
        j := j + 1;
      } else {
        assert rest[1..][j - 1] == rest[j];
      }
    }
  }

  // --- backing files ---------------------------------------------------

  const DELETED_SUFFIX := " (deleted)"

  /** strings.TrimSuffix(raw, " (deleted)"): the row losetup prints for an unlinked file. */
  function TrimDeleted(raw: string): (back: string)
    ensures HasSuffix(raw, DELETED_SUFFIX) ==> back + DELETED_SUFFIX == raw
    ensures !HasSuffix(raw, DELETED_SUFFIX) ==> back == raw
  {
    if HasSuffix(raw, DELETED_SUFFIX) then raw[..|raw| - |DELETED_SUFFIX|] else raw
  }

  /** Is `back`, as losetup reports it, the image at `image`? */
  predicate Backs(back: string, image: string) {
    back == image ||
    (HasPrefix(back, "/") && HasSuffix(image, back) && Base(back) == Base(image))
  }

  /** The path of a file: it does not end in a slash. */
  predicate FileName(f: string) {
    f != "" && f[|f| - 1] != '/'
  }

  /** How the kernel may report an attached file: by its path, or by a tail of it that starts at a slash. */
  predicate ReportedAs(file: string, back: string) {
    back == file || (HasPrefix(back, "/") && HasSuffix(file, back))
  }

  /** Such a report bears the file's own name. */
  lemma ReportKeepsName(file: string, back: string)
    requires FileName(file) && ReportedAs(file, back)
    ensures FileName(back) && Base(back) == Base(file) == AfterSlash(file)
  {
    if back != file {
      assert back[|back| - 1] == file[|file| - |back|..][|back| - 1];
      AfterSlashTail(file, back);
    }
  }

  /**
   As long as only one attached file carries the image's name, Backs answers
   exactly whether the loop's file is the image.
   */
  lemma BacksIsIdentity(file: string, back: string, image: string)
    requires FileName(file) && ReportedAs(file, back)
    requires Base(file) == Base(image) ==> file == image
    ensures Backs(back, image) <==> file == image
    ensures Base(back) == Base(image) <==> file == image
  {
    ReportKeepsName(file, back);
  }

  predicate Hex(c: char) {
    '0' <= c <= '9' || 'a' <= c <= 'f'
  }

  predicate AllHex(s: string) {
    forall i :: 0 <= i < |s| ==> Hex(s[i])
  }

  /** ".nfs" and at least one hex digit: an image unlinked while attached over NFS. */
  predicate SillyRenamed(back: string) {
    var b := Base(back);
    |b| > 4 && b[..4] == ".nfs" && AllHex(b[4..])
  }

  /** "fb-", twelve hex digits, "-", a nonempty name and ".img". */
  predicate VolumeImageName(b: string) {
    |b| > 20 && HasPrefix(b, "fb-") && AllHex(b[3..15]) && b[15] == '-' && HasSuffix(b, ".img") && Free(b, '/')
  }

  /** The regular expression ^/([^/]+/)*fb-[0-9a-f]{12}-[^/]+\.img$. */
  predicate DisconnectedImage(back: string) {
    && HasPrefix(back, "/")
    && VolumeImageName(AfterSlash(back))
    && forall i :: 0 <= i < |back| - 1 && back[i] == '/' ==> back[i + 1] != '/'
  }

  /** Every tail of a clean volume-image path is recognised as one of ours. */
  lemma TailIsDisconnectedImage(file: string, tail: string)
    requires CleanAbsolute(file) && VolumeImageName(AfterSlash(file))
    requires HasPrefix(tail, "/") && HasSuffix(file, tail)
    ensures DisconnectedImage(tail)
  {
    AfterSlashTail(file, tail);
    forall i | 0 <= i < |tail| - 1 && tail[i] == '/'
      ensures tail[i + 1] != '/'
    {
      if tail[i + 1] == '/' {
        var n := |file| - |tail| + i;
        assert file[n] == file[|file| - |tail|..][i] && file[n + 1] == file[|file| - |tail|..][i + 1];
        SplitHead("", '/', file[1..]);
        assert "" + ['/'] + file[1..] == file;
        var j := DoubleSlashSplits(file, n);
      }
    }
  }

  /** A silly-renamed file bears no image's name. */
  lemma SillyIsNoImage(back: string, volume: string)
    requires SillyRenamed(back)
    ensures Base(back) != volume + ".img"
  {
    var b := Base(back);
    assert Hex(b[4..][|b| - 5]) && b[4..][|b| - 5] == b[|b| - 1];
    assert (volume + ".img")[|volume| + 3] == 'g';
  }

  /** An image's path does not look like the kernel's mark of an unlinked file. */
  lemma ImageIsNotDeleted(image: string, volume: string)
    requires FileName(image) && Base(image) == volume + ".img"
    ensures TrimDeleted(image) == image
  {
    assert HasSuffix(image, AfterSlash(image));
    assert image[|image| - 1] == AfterSlash(image)[|AfterSlash(image)| - 1] == 'g';
    assert DELETED_SUFFIX[|DELETED_SUFFIX| - 1] == ')';
  }

  lemma ImagesApart(u: string, w: string)
    requires u + ".img" == w + ".img"
    ensures u == w
  {
    assert u == (u + ".img")[..|u + ".img"| - 4] == w;
  }
}
