/** Names of uploaded MAAS images and the lookup of a requested image
    (pkg/controller/machine/images.go). */
module Images {
  import opened Objects
  import opened Text

  // ---- What a name means --------------------------------------------------------

  datatype Slot = Os | K8s | Type

  datatype Image = Image(os: string, k8sVersion: string, instanceType: string, raw: string)

  /** Which slot a key writes, and with what: `standard` and `gpu` write their
      own name. */
  function KeyWrites(key: string, value: string): Option<(Slot, string)> {
    match key
    case "os" => Some((Os, value))
    case "k8s" => Some((K8s, value))
    case "type" => Some((Type, value))
    case "standard" => Some((Type, key))
    case "gpu" => Some((Type, key))
    case _ => None
  }

  /** What a comma field writes. One with two or more '=' writes nothing. */
  function Writes(field: string): Option<(Slot, string)> {
    var kv := Split(field, '=');
    if |kv| > 2 then None else KeyWrites(kv[0], if |kv| == 2 then kv[1] else "")
  }

  predicate WritesSlot(field: string, slot: Slot) {
    Writes(field).Some? && Writes(field).value.0 == slot
  }

  /** Last writer wins. */
  function SlotValue(fields: seq<string>, slot: Slot): string {
    if fields == [] then ""
    else if WritesSlot(fields[|fields| - 1], slot) then Writes(fields[|fields| - 1]).value.1
    else SlotValue(fields[..|fields| - 1], slot)
  }

  /** The value of a slot is that of the last field that writes it. */
  lemma {:induction false} LastWriterWins(fields: seq<string>, slot: Slot, i: nat)
    requires i < |fields| && WritesSlot(fields[i], slot)
    requires forall j :: i < j < |fields| ==> !WritesSlot(fields[j], slot)
    ensures SlotValue(fields, slot) == Writes(fields[i]).value.1
  {
    if i < |fields| - 1 {
      LastWriterWins(fields[..|fields| - 1], slot, i);
    }
  }

  lemma {:induction false} NoWriterMeansEmpty(fields: seq<string>, slot: Slot)
    requires forall j :: 0 <= j < |fields| ==> !WritesSlot(fields[j], slot)
    ensures SlotValue(fields, slot) == ""
  {
    if fields != [] {
      NoWriterMeansEmpty(fields[..|fields| - 1], slot);
    }
  }

  function Meaning(raw: string): Option<Image> {
    var fields := Split(raw, ',');
    var os, k8s, kind := SlotValue(fields, Os), SlotValue(fields, K8s), SlotValue(fields, Type);
    if os == "" || k8s == "" || kind == "" then None else Some(Image(os, k8s, kind, raw))
  }

  function Assignment(key: string, value: string): string {
    key + ['='] + value
  }

  /** A printed name of an image. */
  function Print(os: string, k8s: string, kind: string): string {
    Assignment("os", os) + [','] + Assignment("k8s", k8s) + [','] + Assignment("type", kind)
  }

  predicate PlainWord(w: string) {
    w != "" && ',' !in w && '=' !in w
  }

  lemma FieldWrites(key: string, value: string)
    requires '=' !in key && '=' !in value
    ensures Writes(Assignment(key, value)) == KeyWrites(key, value)
  {
    SplitLast(key, value, '=');
    SplitWord(key, '=');
  }

  lemma AssignmentWrites(key: string, value: string, slot: Slot)
    requires '=' !in value
    requires (key == "os" && slot == Os) || (key == "k8s" && slot == K8s) || (key == "type" && slot == Type)
    ensures Writes(Assignment(key, value)) == Some((slot, value))
  {
    KeyNames(key, value, slot);
    FieldWrites(key, value);
  }

  lemma KeyNames(key: string, value: string, slot: Slot)
    requires (key == "os" && slot == Os) || (key == "k8s" && slot == K8s) || (key == "type" && slot == Type)
    ensures KeyWrites(key, value) == Some((slot, value)) && '=' !in key
  {
  }

  lemma PrintSplits(os: string, k8s: string, kind: string)
    requires PlainWord(os) && PlainWord(k8s) && PlainWord(kind)
    ensures Split(Print(os, k8s, kind), ',') == [Assignment("os", os), Assignment("k8s", k8s), Assignment("type", kind)]
  {
    var f0, f1, f2 := Assignment("os", os), Assignment("k8s", k8s), Assignment("type", kind);
    SplitWord(f0, ',');
    SplitLast(f0, f1, ',');
    SplitLast(f0 + [','] + f1, f2, ',');
  }

  /** Parsing undoes printing. */
  lemma ParseUndoesPrint(os: string, k8s: string, kind: string)
    requires PlainWord(os) && PlainWord(k8s) && PlainWord(kind)
    ensures Meaning(Print(os, k8s, kind)) == Some(Image(os, k8s, kind, Print(os, k8s, kind)))
  {
    PrintSplits(os, k8s, kind);
    var fields := Split(Print(os, k8s, kind), ',');
    AssignmentWrites("os", os, Os);
    AssignmentWrites("k8s", k8s, K8s);
    AssignmentWrites("type", kind, Type);
    LastWriterWins(fields, Os, 0);
    LastWriterWins(fields, K8s, 1);
    LastWriterWins(fields, Type, 2);
  }

  /** The names of two instance types are themselves fields. */
  function PrintShort(os: string, k8s: string, kind: string): string {
    Assignment("os", os) + [','] + Assignment("k8s", k8s) + [','] + kind
  }

  lemma ShortTypeIsParsed(os: string, k8s: string, kind: string)
    requires PlainWord(os) && PlainWord(k8s) && (kind == "standard" || kind == "gpu")
    ensures Meaning(PrintShort(os, k8s, kind)) == Some(Image(os, k8s, kind, PrintShort(os, k8s, kind)))
  {
    ShortTypeWrites(kind);
    ShortNameIsParsed(os, k8s, kind);
  }

  lemma ShortSplits(os: string, k8s: string, kind: string)
    requires PlainWord(os) && PlainWord(k8s) && ',' !in kind
    ensures Split(PrintShort(os, k8s, kind), ',') == [Assignment("os", os), Assignment("k8s", k8s), kind]
  {
    var f0, f1 := Assignment("os", os), Assignment("k8s", k8s);
    SplitWord(f0, ',');
    SplitLast(f0, f1, ',');
    SplitLast(f0 + [','] + f1, kind, ',');
  }

  lemma ShortNameIsParsed(os: string, k8s: string, kind: string)
    requires PlainWord(os) && PlainWord(k8s) && ',' !in kind && kind != "" && Writes(kind) == Some((Type, kind))
    ensures Meaning(PrintShort(os, k8s, kind)) == Some(Image(os, k8s, kind, PrintShort(os, k8s, kind)))
  {
    ShortSplits(os, k8s, kind);
    var fields := Split(PrintShort(os, k8s, kind), ',');
    AssignmentWrites("os", os, Os);
    AssignmentWrites("k8s", k8s, K8s);
    LastWriterWins(fields, Os, 0);
    LastWriterWins(fields, K8s, 1);
    LastWriterWins(fields, Type, 2);
  }

  lemma ShortTypeWrites(kind: string)
    requires kind == "standard" || kind == "gpu"
    ensures Writes(kind) == Some((Type, kind)) && ',' !in kind && kind != ""
  {
    if kind == "standard" {
      PlainStandard(kind);
    } else {
      PlainGpu(kind);
    }
    SplitWord(kind, '=');
    assert Split(kind, '=') == [kind];
  }

  lemma PlainStandard(w: string)
    requires w == "standard"
    ensures ',' !in w && '=' !in w && w != "" && KeyWrites(w, "") == Some((Type, w))
  {
  }

  lemma PlainGpu(w: string)
    requires w == "gpu"
    ensures ',' !in w && '=' !in w && w != "" && KeyWrites(w, "") == Some((Type, w))
  {
  }

  // ---- The code -------------------------------------------------------------------

  /** image: the record that set, parse and findIn write into. */
  class ImageRecord {
    var os: string
    var k8sVersion: string
    var instanceType: string
    var raw: string

    constructor (os: string, k8sVersion: string, instanceType: string)
      ensures this.os == os && this.k8sVersion == k8sVersion && this.instanceType == instanceType && raw == ""
    {
      this.os, this.k8sVersion, this.instanceType, raw := os, k8sVersion, instanceType, "";
    }

    function Slot(slot: Slot): string
      reads this
    {
      match slot case Os => os case K8s => k8sVersion case Type => instanceType
    }

    method Set(key: string, value: string)
      modifies this`os, this`k8sVersion, this`instanceType
      ensures forall s :: Slot(s) == match KeyWrites(key, value)
                                     case Some((t, v)) => if s == t then v else old(Slot(s))
                                     case None => old(Slot(s))
    {
      match key
      case "os" => os := value;
      case "k8s" => k8sVersion := value;
      case "type" => instanceType := value;
      case "standard" => instanceType := key;
      case "gpu" => instanceType := key;
      case _ =>
    }

    /** One field of a name. */
    method Assign(field: string)
      modifies this`os, this`k8sVersion, this`instanceType
      ensures forall s :: Slot(s) == if WritesSlot(field, s) then Writes(field).value.1 else old(Slot(s))
    {
      var keyValue := Split(field, '=');
      var key, value := keyValue[0], "";
      if |keyValue| == 2 {
        value := keyValue[1];
      } else if |keyValue| > 2 {
        return;
      }
      Set(key, value);
    }

    method FindIn(images: seq<Image>) returns (found: bool)
      modifies this`raw
      ensures os == "" || k8sVersion == "" || instanceType == "" ==> !found
      ensures found ==> exists i :: 0 <= i < |images| && Same(images[i]) && raw == images[i].raw
                                    && forall j :: 0 <= j < i ==> !Same(images[j])
      ensures !found ==> raw == old(raw)
      ensures !found && os != "" && k8sVersion != "" && instanceType != "" ==>
                forall i :: 0 <= i < |images| ==> !Same(images[i])
    {
      if os == "" || k8sVersion == "" || instanceType == "" {
        return false;
      }
      for i := 0 to |images|
        invariant raw == old(raw)
        invariant forall j :: 0 <= j < i ==> !Same(images[j])
      {
        if images[i].os == os && images[i].k8sVersion == k8sVersion && images[i].instanceType == instanceType {
          raw := images[i].raw;
          return true;
        }
      }
      return false;
    }

    predicate Same(img: Image)
      reads this`os, this`k8sVersion, this`instanceType
    {
      img.os == os && img.k8sVersion == k8sVersion && img.instanceType == instanceType
    }
  }

  method Parse(raw: string) returns (r: Option<Image>)
    ensures r == Meaning(raw)
  {
    var i := new ImageRecord("", "", "");
    i.raw := raw;
    var fields := Split(raw, ',');
    for n := 0 to |fields|
      invariant i.raw == raw
      invariant forall s :: i.Slot(s) == SlotValue(fields[..n], s)
    {
      assert fields[..n + 1][..n] == fields[..n];
      i.Assign(fields[n]);
    }
    assert fields[..|fields|] == fields;
    assert i.os == i.Slot(Os) && i.k8sVersion == i.Slot(K8s) && i.instanceType == i.Slot(Type);
    if i.os == "" || i.k8sVersion == "" || i.instanceType == "" {
      return None;
    }
    return Some(Image(i.os, i.k8sVersion, i.instanceType, i.raw));
  }

  datatype BootResource = BootResource(kind: string, name: string)

  /** The resource is an uploaded image for exactly this request. */
  predicate Offers(b: BootResource, os: string, k8s: string, kind: string) {
    b.kind == "Uploaded" && Meaning(b.name) == Some(Image(os, k8s, kind, b.name))
  }

  /** Images of the uploaded resources that parse, in order. */
  function Uploaded(br: seq<BootResource>): seq<Image> {
    if br == [] then []
    else
      var last := br[|br| - 1];
      Uploaded(br[..|br| - 1]) +
      if last.kind == "Uploaded" && Meaning(last.name).Some? then [Meaning(last.name).value] else []
  }

  method GetImages(br: Result<seq<BootResource>, ()>) returns (images: seq<Image>)
    ensures images == if br.Ok? then Uploaded(br.value) else []
  {
    images := [];
    if br.Err? {
      return;
    }
    for i := 0 to |br.value|
      invariant images == Uploaded(br.value[..i])
    {
      assert br.value[..i + 1][..i] == br.value[..i];
      if br.value[i].kind != "Uploaded" {
        continue;
      }
      var img := Parse(br.value[i].name);
      if img.Some? {
        images := images + [img.value];
      }
    }
    assert br.value[..|br.value|] == br.value;
  }

  lemma UploadedSnoc(br: seq<BootResource>, last: BootResource)
    ensures Uploaded(br + [last]) ==
            Uploaded(br) + if last.kind == "Uploaded" && Meaning(last.name).Some? then [Meaning(last.name).value]
                else []
  {
    assert (br + [last])[..|br|] == br;
  }

  /** The n-th image comes from resource i, and the images before it are those
      of the resources before i. */
  lemma {:induction false} UploadedSource(br: seq<BootResource>, n: nat) returns (i: nat)
    requires n < |Uploaded(br)|
    ensures i < |br| && br[i].kind == "Uploaded" && Meaning(br[i].name) == Some(Uploaded(br)[n])
    ensures Uploaded(br[..i]) == Uploaded(br)[..n]
  {
    var front, last := br[..|br| - 1], br[|br| - 1];
    assert br == front + [last];
    UploadedSnoc(front, last);
    if n < |Uploaded(front)| {
      i := UploadedSource(front, n);
      assert br[..i] == front[..i];
      assert Uploaded(br)[..n] == Uploaded(front)[..n];
    } else {
      i := |front|;
      assert br[..i] == front;
    }
  }

  lemma MeaningKeepsName(raw: string)
    ensures Meaning(raw).Some? ==> Meaning(raw).value.raw == raw
  {
  }

  lemma {:induction false} OfferIsUploaded(br: seq<BootResource>, i: nat, os: string, k8s: string, kind: string)
    requires i < |br| && Offers(br[i], os, k8s, kind)
    ensures Image(os, k8s, kind, br[i].name) in Uploaded(br)
  {
    if i < |br| - 1 {
      OfferIsUploaded(br[..|br| - 1], i, os, k8s, kind);
    }
  }

  /** The result names the first offering resource. */
  predicate FirstOffer(br: seq<BootResource>, os: string, k8s: string, kind: string, r: string) {
    exists i :: 0 <= i < |br| && Offers(br[i], os, k8s, kind) && r == br[i].name
                && forall j :: 0 <= j < i ==> !Offers(br[j], os, k8s, kind)
  }

  /** A resource that offers an image has a non-empty name. */
  lemma OfferHasName(b: BootResource, os: string, k8s: string, kind: string)
    requires Offers(b, os, k8s, kind)
    ensures b.name != ""
  {
    if b.name == "" {
      assert Split("", ',') == [""];
      assert Split("", '=') == [""];
      NoWriterMeansEmpty([""], Os);
    }
  }

  lemma NothingOffered(br: seq<BootResource>, os: string, k8s: string, kind: string)
    requires forall n :: 0 <= n < |Uploaded(br)| ==>
               !(Uploaded(br)[n].os == os && Uploaded(br)[n].k8sVersion == k8s && Uploaded(br)[n].instanceType == kind)
    ensures forall i :: 0 <= i < |br| ==> !Offers(br[i], os, k8s, kind)
  {
    forall i | 0 <= i < |br|
      ensures !Offers(br[i], os, k8s, kind)
    {
      if Offers(br[i], os, k8s, kind) {
        OfferIsUploaded(br, i, os, k8s, kind);
      }
    }
  }

  /** The first matching image is the one of the first offering resource. */
  lemma FirstMatchIsFirstOffer(br: seq<BootResource>, n: nat, os: string, k8s: string, kind: string)
    requires n < |Uploaded(br)|
    requires Uploaded(br)[n].os == os && Uploaded(br)[n].k8sVersion == k8s && Uploaded(br)[n].instanceType == kind
    requires forall j :: 0 <= j < n ==>
               !(Uploaded(br)[j].os == os && Uploaded(br)[j].k8sVersion == k8s && Uploaded(br)[j].instanceType == kind)
    ensures FirstOffer(br, os, k8s, kind, Uploaded(br)[n].raw) && Uploaded(br)[n].raw != ""
  {
    var w := UploadedSource(br, n);
    MeaningKeepsName(br[w].name);
    assert Offers(br[w], os, k8s, kind);
    OfferHasName(br[w], os, k8s, kind);
    NothingOffered(br[..w], os, k8s, kind);
    forall j | 0 <= j < w ensures !Offers(br[j], os, k8s, kind) {
      assert br[..w][j] == br[j];
    }
  }

  /** getImage. A non-empty answer names the first uploaded resource for exactly
      the request; the answer is empty exactly if a part of the request is empty
      or no uploaded resource is for it (none at all if the listing failed). */
  method GetImage(br: Result<seq<BootResource>, ()>, os: string, k8s: string, kind: string) returns (r: string)
    ensures r != "" ==> br.Ok? && FirstOffer(br.value, os, k8s, kind, r)
    ensures r == "" <==> os == "" || k8s == "" || kind == "" || br.Err?
                         || forall i :: 0 <= i < |br.value| ==> !Offers(br.value[i], os, k8s, kind)
  {
    var i := new ImageRecord(os, k8s, kind);
    var images := GetImages(br);
    var found := i.FindIn(images);
    if found {
      ghost var n :| 0 <= n < |images| && i.Same(images[n]) && i.raw == images[n].raw
                     && forall j :: 0 <= j < n ==> !i.Same(images[j]);
      FirstMatchIsFirstOffer(br.value, n, os, k8s, kind);
      return i.raw;
    }
    if br.Ok? && os != "" && k8s != "" && kind != "" {
      forall n | 0 <= n < |images|
        ensures !(images[n].os == os && images[n].k8sVersion == k8s && images[n].instanceType == kind)
      {
        assert !i.Same(images[n]);
      }
      NothingOffered(br.value, os, k8s, kind);
    }
    return "";
  }
}
