/** The per-record normalisation `fetchProducts` applies to each raw product
    the backend returns. */
module Normalizer {
  import opened Wrappers
  import opened JsValues

  /** Fields coerced with `Number(v) || 0`. */
  const NumericFields: set<string> :=
    {"rating", "price", "promotionAsPercentage", "countSold", "categoryId", "instock"}

  /** Every field the normaliser writes; all others are copied by `...p`. */
  const NormalizedFields: set<string> :=
    NumericFields + {"group", "inStock", "detail", "discountcolor", "image"}

  const DefaultGroup: string := "default"
  const NoDetail: string := "No description available"
  const DefaultDiscountColor: string := "#10b981"

  /** `Number(v) || 0`: the parsed number, or 0 when it is NaN. */
  function NumberOrZero(js: Runtime, v: Value): real
  {
    match ToNumber(js, v)
    case Some(x) => x
    case None => 0.0
  }

  /** `Number(v) > 0`: NaN compares false. */
  predicate Positive(js: Runtime, v: Value) {
    match ToNumber(js, v)
    case Some(x) => x > 0.0
    case None => false
  }

  /** `String(v || fallback)`. */
  function StringOr(js: Runtime, v: Value, fallback: string): string
  {
    ToStr(js, if Truthy(v) then v else Str(fallback))
  }

  /** `(v && String(v).trim()) || fallback`: the trimmed text when the value
      is truthy and not blank, the fallback otherwise; never empty when the
      fallback is not. */
  function TrimmedOr(js: Runtime, v: Value, fallback: string): (r: string)
    requires fallback != ""
    ensures r != ""
    ensures Truthy(v) && Trim(ToStr(js, v)) != "" ==> r == Trim(ToStr(js, v))
    ensures !Truthy(v) || Trim(ToStr(js, v)) == "" ==> r == fallback
  {
    var first := if Truthy(v) then Str(Trim(ToStr(js, v))) else v;
    if Truthy(first) then first.s else fallback
  }

  /** The `image` field: the decoded array when `JSON.parse` yields an
      array, and the raw value wrapped in a one-element list when it yields
      anything else or throws. */
  function ImageList(js: Runtime, v: Value): seq<Value>
  {
    var parsed := js.parseJson(ToStr(js, v));
    if parsed.Some? && parsed.value.Arr? then parsed.value.items else [v]
  }

  /** The value the normaliser writes into field `f`. */
  function FieldValue(js: Runtime, p: Record, f: string): Value
    requires f in NormalizedFields
  {
    if f == "group" then Str(StringOr(js, Get(p, "group"), DefaultGroup))
    else if f == "inStock" then Bool(Positive(js, Get(p, "instock")))
    else if f == "detail" then Str(TrimmedOr(js, Get(p, "detail"), NoDetail))
    else if f == "discountcolor" then
      Str(TrimmedOr(js, Get(p, "discountcolor"), DefaultDiscountColor))
    else if f == "image" then Arr(ImageList(js, Get(p, "image")))
    else Num(NumberOrZero(js, Get(p, f)))
  }

  /** `{...p, <normalised fields>}`: the raw record with the normalised
      fields written over it. */
  function Overlay(js: Runtime, p: Record): Record {
    map k | k in p.Keys + NormalizedFields ::
      if k in NormalizedFields then FieldValue(js, p, k) else p[k]
  }

  lemma OverlayNumbers(js: Runtime, p: Record)
    ensures forall f :: f in NumericFields ==>
              && f in Overlay(js, p) && Overlay(js, p)[f].Num?
              && (ToNumber(js, Get(p, f)).Some? ==> Overlay(js, p)[f].x == ToNumber(js, Get(p, f)).value)
              && (ToNumber(js, Get(p, f)).None? ==> Overlay(js, p)[f].x == 0.0)
  {
    forall f | f in NumericFields
      ensures f in Overlay(js, p) && Overlay(js, p)[f] == Num(NumberOrZero(js, Get(p, f)))
    {
      assert f != "group" && f != "inStock" && f != "detail" && f != "discountcolor" && f != "image";
    }
  }

  lemma OverlayStock(js: Runtime, p: Record)
    ensures "instock" in Overlay(js, p) && "inStock" in Overlay(js, p)
    ensures Overlay(js, p)["instock"].Num?
    ensures Overlay(js, p)["inStock"] == Bool(Overlay(js, p)["instock"].x > 0.0)
  {
    var r := Overlay(js, p);
    assert r["instock"] == Num(NumberOrZero(js, Get(p, "instock")));
    assert r["inStock"] == Bool(Positive(js, Get(p, "instock")));
  }

  lemma OverlayText(js: Runtime, p: Record)
    ensures "detail" in Overlay(js, p) && "discountcolor" in Overlay(js, p)
    ensures Overlay(js, p)["detail"] == Str(TrimmedOr(js, Get(p, "detail"), NoDetail))
    ensures Overlay(js, p)["discountcolor"]
            == Str(TrimmedOr(js, Get(p, "discountcolor"), DefaultDiscountColor))
  {
  }

  lemma OverlayShapes(js: Runtime, p: Record)
    ensures "group" in Overlay(js, p) && "image" in Overlay(js, p)
    ensures Overlay(js, p)["group"]
            == Str(if Truthy(Get(p, "group")) then ToStr(js, Get(p, "group")) else DefaultGroup)
    ensures (match js.parseJson(ToStr(js, Get(p, "image")))
             case Some(Arr(items)) => Overlay(js, p)["image"] == Arr(items)
             case _ => Overlay(js, p)["image"] == Arr([Get(p, "image")]))
  {
  }

  /** One raw product record in canonical form. */
  function Normalize(js: Runtime, p: Record): (r: Record)
    ensures r.Keys == p.Keys + NormalizedFields
    ensures forall k :: k in p && k !in NormalizedFields ==> r[k] == p[k]
    ensures forall f :: f in NumericFields ==>
              && r[f].Num?
              && (ToNumber(js, Get(p, f)).Some? ==> r[f].x == ToNumber(js, Get(p, f)).value)
              && (ToNumber(js, Get(p, f)).None? ==> r[f].x == 0.0)
    ensures r["inStock"] == Bool(r["instock"].x > 0.0)
    ensures r["detail"].Str? && r["detail"].s != ""
    ensures r["discountcolor"].Str? && r["discountcolor"].s != ""
    ensures r["group"] == Str(if Truthy(Get(p, "group")) then ToStr(js, Get(p, "group")) else DefaultGroup)
    ensures (match js.parseJson(ToStr(js, Get(p, "image")))
             case Some(Arr(items)) => r["image"] == Arr(items)
             case _ => r["image"] == Arr([Get(p, "image")]))
  {
    OverlayNumbers(js, p);
    OverlayStock(js, p);
    OverlayText(js, p);
    OverlayShapes(js, p);
    Overlay(js, p)
  }

  /** `data.map(p => ({...p, ...}))` over the decoded body of the products
      listing: None when the body is not an array, or when an element is
      null or undefined (reading a property of it throws). */
  function NormalizeAll(js: Runtime, data: Value): (r: Option<seq<Record>>)
    ensures r.Some? <==> data.Arr? && forall i :: 0 <= i < |data.items| ==> !Nullish(data.items[i])
    ensures r.Some? ==> && |r.value| == |data.items|
                        && forall i :: 0 <= i < |data.items| ==>
                             r.value[i] == Normalize(js, SpreadOf(data.items[i]))
  {
    match data
    case Arr(items) =>
      if forall i :: 0 <= i < |items| ==> !Nullish(items[i]) then
        Some(seq(|items|, i requires 0 <= i < |items| => Normalize(js, SpreadOf(items[i]))))
      else None
    case _ => None
  }

  /** A record with no stock figure comes out as out of stock, with a
      stock of 0. */
  lemma MissingStock(js: Runtime, p: Record)
    requires "instock" !in p
    ensures Normalize(js, p)["inStock"] == Bool(false)
    ensures Normalize(js, p)["instock"] == Num(0.0)
  {
  }

  /** `inStock` holds exactly when the parsed raw stock is above zero. */
  lemma InStockIffPositive(js: Runtime, p: Record)
    ensures Normalize(js, p)["inStock"] == Bool(true) <==>
            exists n :: ToNumber(js, Get(p, "instock")) == Some(n) && n > 0.0
  {
  }

  /** `detail` and `discountcolor`: the trimmed raw text when the raw value
      is truthy and not blank, the fixed fallback otherwise. */
  lemma TextFields(js: Runtime, p: Record)
    ensures var d := Get(p, "detail");
            Normalize(js, p)["detail"] ==
              Str(if Truthy(d) && Trim(ToStr(js, d)) != "" then Trim(ToStr(js, d)) else NoDetail)
    ensures var c := Get(p, "discountcolor");
            Normalize(js, p)["discountcolor"] ==
              Str(if Truthy(c) && Trim(ToStr(js, c)) != "" then Trim(ToStr(js, c))
                  else DefaultDiscountColor)
  {
  }

  /** The raw `groupId` is not touched, so the group getters compare it as
      the backend sent it. */
  lemma GroupIdPassesThrough(js: Runtime, p: Record)
    ensures Get(Normalize(js, p), "groupId") == Get(p, "groupId")
  {
  }

  /** A JSON-encoded array of names is decoded; a bare name is wrapped. */
  lemma ImageExamples(js: Runtime)
    requires js.parseJson("[\"a.png\",\"b.png\"]") == Some(Arr([Str("a.png"), Str("b.png")]))
    requires js.parseJson("a.png") == None
    ensures Normalize(js, map["image" := Str("[\"a.png\",\"b.png\"]")])["image"]
            == Arr([Str("a.png"), Str("b.png")])
    ensures Normalize(js, map["image" := Str("a.png")])["image"] == Arr([Str("a.png")])
  {
  }

  /** A backend product `{id: 1, rating: "4.5", instock: 3, image: "x.png"}`
      becomes an in-stock product rated 4.5 with image list ["x.png"], and
      an unparseable price such as "N/A" becomes 0. */
  lemma FetchedRecordExample(js: Runtime)
    requires js.numberOfString("4.5") == Some(4.5)
    requires js.numberOfString("N/A") == None
    requires js.parseJson("x.png") == None
    ensures var r := Normalize(js, map["id" := Num(1.0), "rating" := Str("4.5"),
                                       "instock" := Num(3.0), "image" := Str("x.png"),
                                       "price" := Str("N/A")]);
            && r["id"] == Num(1.0)
            && r["rating"] == Num(4.5)
            && r["inStock"] == Bool(true)
            && r["image"] == Arr([Str("x.png")])
            && r["price"] == Num(0.0)
  {
  }

  /** Re-applying `(v && String(v).trim()) || fallback` to its own result
      gives that result back, when the fallback is itself trimmed. */
  lemma TrimmedOrStable(js: Runtime, v: Value, fallback: string)
    requires fallback != "" && Trim(fallback) == fallback
    ensures TrimmedOr(js, Str(TrimmedOr(js, v, fallback)), fallback) == TrimmedOr(js, v, fallback)
  {
    var t := TrimmedOr(js, v, fallback);
    assert Truthy(Str(t)) && ToStr(js, Str(t)) == t;
    if Truthy(v) && Trim(ToStr(js, v)) != "" {
      TrimIdempotent(ToStr(js, v));
    }
    assert Trim(t) == t;
  }

  lemma FallbacksAreTrimmed()
    ensures Trim(NoDetail) == NoDetail
    ensures Trim(DefaultDiscountColor) == DefaultDiscountColor
  {
    assert NoDetail[0] == 'N' && NoDetail[|NoDetail| - 1] == 'e';
    TrimOfUnpadded(NoDetail);
    assert DefaultDiscountColor[0] == '#' && DefaultDiscountColor[|DefaultDiscountColor| - 1] == '1';
    TrimOfUnpadded(DefaultDiscountColor);
  }

  lemma RenormalizeNumber(js: Runtime, once: Record, k: string)
    requires k in NumericFields && k in once && once[k].Num?
    ensures Normalize(js, once)[k] == once[k]
  {
    OverlayNumbers(js, once);
    assert Get(once, k) == Num(once[k].x);
  }

  lemma RenormalizeStock(js: Runtime, once: Record)
    requires "instock" in once && once["instock"].Num?
    requires "inStock" in once && once["inStock"] == Bool(once["instock"].x > 0.0)
    ensures Normalize(js, once)["inStock"] == once["inStock"]
  {
    OverlayStock(js, once);
    RenormalizeNumber(js, once, "instock");
  }

  lemma RenormalizeGroup(js: Runtime, once: Record)
    requires "group" in once && once["group"].Str? && once["group"].s != ""
    ensures Normalize(js, once)["group"] == once["group"]
  {
    OverlayShapes(js, once);
    assert Get(once, "group") == Str(once["group"].s);
  }

  lemma RenormalizeText(js: Runtime, p: Record, once: Record, k: string, fallback: string)
    requires k in once && fallback != "" && Trim(fallback) == fallback
    requires once[k] == Str(TrimmedOr(js, Get(p, k), fallback))
    requires Normalize(js, once)[k] == Str(TrimmedOr(js, Get(once, k), fallback))
    ensures Normalize(js, once)[k] == once[k]
  {
    TrimmedOrStable(js, Get(p, k), fallback);
  }

  /** One field of `once` survives a second normalisation. */
  lemma RenormalizeField(js: Runtime, p: Record, once: Record, k: string)
    requires once == Normalize(js, p) && once["group"] != Str("")
    requires k in once && k != "image"
    ensures k in Normalize(js, once) && Normalize(js, once)[k] == once[k]
  {
    if k in NumericFields {
      RenormalizeNumber(js, once, k);
    } else if k == "inStock" {
      RenormalizeStock(js, once);
    } else if k == "group" {
      RenormalizeGroup(js, once);
    } else if k == "detail" {
      FallbacksAreTrimmed();
      OverlayText(js, p);
      OverlayText(js, once);
      RenormalizeText(js, p, once, k, NoDetail);
    } else if k == "discountcolor" {
      FallbacksAreTrimmed();
      OverlayText(js, p);
      OverlayText(js, once);
      RenormalizeText(js, p, once, k, DefaultDiscountColor);
    } else {
      assert k !in NormalizedFields;
    }
  }

  /** Normalising a normalised record again changes nothing except
      `image` and, when it came out empty, `group`: numbers stay numbers,
      trimmed text stays trimmed and `inStock` follows `instock`. */
  lemma RenormalizeKeepsFields(js: Runtime, p: Record)
    requires Normalize(js, p)["group"] != Str("")
    ensures var once := Normalize(js, p);
            var twice := Normalize(js, once);
            twice.Keys == once.Keys &&
            forall k :: k in once && k != "image" ==> twice[k] == once[k]
  {
    var once := Normalize(js, p);
    forall k | k in once && k != "image" ensures Normalize(js, once)[k] == once[k] {
      RenormalizeField(js, p, once, k);
    }
  }

  /** What a second pass makes of `image`: it parses `String` of the list the
      first pass produced, keeps the result when that is an array, and wraps
      the list in another list otherwise. */
  lemma RenormalizeImage(js: Runtime, p: Record)
    ensures var once := Normalize(js, p);
            var text := ToStr(js, once["image"]);
            (match js.parseJson(text)
             case Some(Arr(items)) => Normalize(js, once)["image"] == Arr(items)
             case _ => Normalize(js, once)["image"] == Arr([once["image"]]))
  {
    var once := Normalize(js, p);
    assert Get(once, "image") == once["image"];
  }

  /** Normalisation is not idempotent: the image list `["a.png"]` that is fed
      back in is turned into the string "a.png", fails to parse and is
      wrapped once more. */
  lemma {:induction false} RenormalizeWrapsImage(js: Runtime)
    requires js.parseJson("a.png") == None
    ensures var once := Normalize(js, map["image" := Str("a.png")]);
            && once["image"] == Arr([Str("a.png")])
            && Normalize(js, once)["image"] == Arr([once["image"]])
            && Normalize(js, once) != once
  {
    var once := Normalize(js, map["image" := Str("a.png")]);
    assert ToStr(js, Arr([Str("a.png")])) == "a.png" by {
      var parts := seq(1, i requires 0 <= i < 1 =>
                         if Nullish([Str("a.png")][i]) then "" else ToStr(js, [Str("a.png")][i]));
      assert parts == ["a.png"];
    }
    assert Normalize(js, once)["image"] != once["image"];
  }
}
