/**
 * The `/parse` handler of the NLU route: the guards on blank text and low
 * confidence, the text-based fallback extraction of year, product and
 * channel (case-insensitive whole-word regular expressions), and the merge
 * and normalisation of the slots. The NLP library's answer is an input.
 */
module Nlu {

  import opened Wrappers
  import opened Text
  import Action

  // ---------------------------------------------------------------------
  // /\b(a1|a2|...)\b/i on a string
  // ---------------------------------------------------------------------

  /** Index `i` holds a `\w` character (outside the string there is none). */
  predicate IsWordAt(s: string, i: int) {
    0 <= i < |s| && IsWordChar(s[i])
  }

  /** `\b` at position `i`: exactly one side of it is a `\w` character. */
  predicate Boundary(s: string, i: int) {
    0 <= i <= |s| && IsWordAt(s, i - 1) != IsWordAt(s, i)
  }

  /** Alternative `a` matches at `i` when compared character by character after Canonicalize. */
  predicate MatchesAt(s: string, a: string, i: int) {
    0 <= i && i + |a| <= |s| && forall k :: 0 <= k < |a| ==> Canon(s[i + k]) == Canon(a[k])
  }

  /** `\b a \b` matches at `i`. */
  predicate WholeWordAt(s: string, a: string, i: int) {
    Boundary(s, i) && MatchesAt(s, a, i) && Boundary(s, i + |a|)
  }

  /** What `.test(s)` answers for `/\b(alts[0]|alts[1]|...)\b/i`: some alternative matches somewhere. */
  predicate RegexMatches(s: string, alts: seq<string>) {
    exists i, j :: 0 <= j < |alts| && 0 <= i <= |s| && WholeWordAt(s, alts[j], i)
  }

  /** Tries every alternative, in order, at position `i`. */
  function AnyAlternativeAt(s: string, alts: seq<string>, i: int): (b: bool)
    ensures b <==> exists j :: 0 <= j < |alts| && WholeWordAt(s, alts[j], i)
  {
    if alts == [] then false
    else if WholeWordAt(s, alts[0], i) then true
    else
      var rest := AnyAlternativeAt(s, alts[1..], i);
      assert forall j :: 1 <= j < |alts| ==> alts[j] == alts[1..][j - 1];
      assert rest ==> exists j :: 0 <= j < |alts| && WholeWordAt(s, alts[j], i) by {
        if rest {
          var j :| 0 <= j < |alts[1..]| && WholeWordAt(s, alts[1..][j], i);
          assert WholeWordAt(s, alts[j + 1], i);
        }
      }
      rest
  }

  /** Scans the positions `i, i + 1, ..., |s|` left to right. */
  function ScanFrom(s: string, alts: seq<string>, i: nat): (b: bool)
    requires i <= |s| + 1
    ensures b <==> exists p, j :: 0 <= j < |alts| && i <= p <= |s| && WholeWordAt(s, alts[j], p)
    decreases |s| + 1 - i
  {
    if i > |s| then false
    else if AnyAlternativeAt(s, alts, i) then true
    else ScanFrom(s, alts, i + 1)
  }

  /** `regex.test(s)`: the scanner finds a match exactly when one exists. */
  function Test(s: string, alts: seq<string>): (b: bool)
    ensures b <==> RegexMatches(s, alts)
  {
    ScanFrom(s, alts, 0)
  }

  /**
   * Canonicalize keeps 'ı' apart from every `\w` character, and likewise
   * 'ö'; so an alternative that ends in either ends in a non-word character.
   */
  lemma DotlessAndUmlautAreNotWordLike(c: char)
    ensures Canon(c) == Canon('\U{0131}') ==> !IsWordChar(c)
    ensures Canon(c) == Canon('\U{00F6}') ==> !IsWordChar(c)
  {
  }

  /**
   * `\b` is ASCII-only: an alternative whose last character is like 'ı'
   * or 'ö' (as in "rakı" and "likör") only matches when an ASCII word
   * character follows it, so it is never found before a space, punctuation
   * or the end of the text.
   */
  lemma NonAsciiEndingNeedsWordAfter(s: string, a: string, i: int)
    requires |a| >= 1 && (a[|a| - 1] == '\U{0131}' || a[|a| - 1] == '\U{00F6}')
    requires WholeWordAt(s, a, i)
    ensures i + |a| < |s| && IsWordChar(s[i + |a|])
  {
    var k := |a| - 1;
    assert Canon(s[i + k]) == Canon(a[k]);
    DotlessAndUmlautAreNotWordLike(s[i + k]);
  }

  // ---------------------------------------------------------------------
  // fallbackExtract
  // ---------------------------------------------------------------------

  const WhiskySpellings := ["whisky", "whiskey", "viski"]
  const RakiSpellings := ["rak\U{0131}", "raki"]
  const VodkaSpellings := ["vodka", "votka"]
  const GinSpellings := ["gin", "cin"]
  const LikorSpellings := ["lik\U{00F6}r", "likor"]

  const WholesaleWords := ["toptan"]
  const MarketWords := ["market", "markette", "perakende"]
  /** `online|e-?ticaret|eticaret`: the optional hyphen gives both spellings. */
  const OnlineWords := ["online", "e-ticaret", "eticaret"]

  /** What the fallback finds in the text; None is `null`. */
  datatype Extracted = Extracted(yil: Option<string>, urun: Option<string>, kanal: Option<string>)

  /** The product named in the text, by precedence WHISKY, RAKI, VODKA, GIN, LIKOR. */
  function ProductOf(t: string): (u: Option<string>)
    ensures u.None? || u.value in Action.ProductGroups
    ensures u == Some("WHISKY") <==> RegexMatches(t, WhiskySpellings)
    ensures u == Some("RAKI") <==> !RegexMatches(t, WhiskySpellings) && RegexMatches(t, RakiSpellings)
    ensures u == Some("VODKA") <==>
      !RegexMatches(t, WhiskySpellings) && !RegexMatches(t, RakiSpellings) && RegexMatches(t, VodkaSpellings)
    ensures u == Some("GIN") <==>
      !RegexMatches(t, WhiskySpellings) && !RegexMatches(t, RakiSpellings) && !RegexMatches(t, VodkaSpellings)
      && RegexMatches(t, GinSpellings)
    ensures u.None? <==>
      !RegexMatches(t, WhiskySpellings) && !RegexMatches(t, RakiSpellings) && !RegexMatches(t, VodkaSpellings)
      && !RegexMatches(t, GinSpellings) && !RegexMatches(t, LikorSpellings)
  {
    if Test(t, WhiskySpellings) then Some("WHISKY")
    else if Test(t, RakiSpellings) then Some("RAKI")
    else if Test(t, VodkaSpellings) then Some("VODKA")
    else if Test(t, GinSpellings) then Some("GIN")
    else if Test(t, LikorSpellings) then Some("LIKOR")
    else None
  }

  /** The channel named in the lower-cased text, by precedence toptan, market, online. */
  function ChannelOf(low: string): (k: Option<string>)
    ensures k.None? || k.value in {"toptan", "market", "online"}
    ensures k == Some("toptan") <==> RegexMatches(low, WholesaleWords)
    ensures k == Some("market") <==> !RegexMatches(low, WholesaleWords) && RegexMatches(low, MarketWords)
    ensures k.None? <==>
      !RegexMatches(low, WholesaleWords) && !RegexMatches(low, MarketWords) && !RegexMatches(low, OnlineWords)
  {
    if Test(low, WholesaleWords) then Some("toptan")
    else if Test(low, MarketWords) then Some("market")
    else if Test(low, OnlineWords) then Some("online")
    else None
  }

  const Centuries := {"19", "20"}

  /** `fallbackExtract(text)`: year from the text, product from the text, channel from its lower case. */
  function FallbackExtract(t: string): (x: Extracted)
    ensures x.yil == FirstYear(t, Centuries)
    ensures x.urun == ProductOf(t) && x.kanal == ChannelOf(Lower(t))
  {
    Extracted(FirstYear(t, Centuries), ProductOf(t), ChannelOf(Lower(t)))
  }

  /**
   * Whatever the fallback extracts is already in the form the action
   * route normalises to: its product and channel pass `normUrun` and
   * `normKanal` unchanged.
   */
  lemma FallbackValuesAreNormal(t: string)
    ensures var x := FallbackExtract(t);
      && (x.urun.Some? ==> Action.NormUrun(x.urun.value) == x.urun)
      && (x.kanal.Some? ==> Action.NormKanal(x.kanal.value) == x.kanal.value)
  {
    var x := FallbackExtract(t);
    if x.urun.Some? {
      GroupIsNormal(x.urun.value);
    }
    if x.kanal.Some? {
      ChannelIsNormal(x.kanal.value);
    }
  }

  lemma GroupIsNormal(g: string)
    requires g in Action.ProductGroups
    ensures Action.NormUrun(g) == Some(g)
  {
    assert Action.IsUpperAscii(g);
    Action.UpperFixesUpperAscii(g);
  }

  lemma ChannelIsNormal(k: string)
    requires k in {"toptan", "market", "online"}
    ensures Action.NormKanal(k) == k
  {
    assert Action.IsLowerAscii(k);
    Action.LowerFixesLowerAscii(k);
    Action.SameLengthContains(k, "toptan");
    Action.SameLengthContains(k, "online");
  }

  // ---------------------------------------------------------------------
  // The /parse handler
  // ---------------------------------------------------------------------

  /** One entity the NLP library recognised: its name and the text it covers. */
  datatype NluEntity = NluEntity(entity: string, sourceText: string)

  /** The NLP library's answer for the text; an intent of None or "" is no intent. */
  datatype NluResult = NluResult(intent: Option<string>, score: real, entities: seq<NluEntity>)

  const Threshold: real := 0.45

  const Suggestions: seq<string> := ["2024 market rak\U{0131} litre", "2025 toptan viski ciro"]

  datatype ParseOutcome =
    | BadRequest(error: string)
    | Fallback(confidence: real, suggestions: seq<string>)
    | Parsed(intent: string, confidence: real, slots: map<string, string>)

  /** `req.body?.text || req.query?.text || ''`: the first non-empty of the two. */
  function RequestText(body: Option<string>, query: Option<string>): (t: string)
    ensures body.Some? && body.value != "" ==> t == body.value
    ensures t == "" <==> (body.None? || body.value == "") && (query.None? || query.value == "")
  {
    if body.Some? && body.value != "" then body.value
    else if query.Some? && query.value != "" then query.value
    else ""
  }

  /** `result.intent ? result.score : 0`. */
  function Confidence(r: NluResult): (c: real)
    ensures r.intent.None? || r.intent.value == "" ==> c == 0.0
    ensures r.intent.Some? && r.intent.value != "" ==> c == r.score
  {
    if r.intent.Some? && r.intent.value != "" then r.score else 0.0
  }

  /** The slots from the NLU entities, in order: a later entity of the same name overwrites. */
  function EntitySlots(es: seq<NluEntity>): (m: map<string, string>)
    ensures forall k :: k in m <==> exists i :: 0 <= i < |es| && es[i].entity == k
  {
    if es == [] then map[]
    else
      var init := es[..|es| - 1];
      assert forall i :: 0 <= i < |init| ==> init[i] == es[i];
      EntitySlots(init)[es[|es| - 1].entity := es[|es| - 1].sourceText]
  }

  /** The value of a slot is the text of the last entity of that name. */
  lemma {:induction false} LastEntityWins(es: seq<NluEntity>, k: string)
    requires k in EntitySlots(es)
    ensures exists i ::
      && 0 <= i < |es| && es[i].entity == k && EntitySlots(es)[k] == es[i].sourceText
      && (forall j :: i < j < |es| ==> es[j].entity != k)
  {
    var init := es[..|es| - 1];
    var last := es[|es| - 1];
    if last.entity == k {
      assert EntitySlots(es)[k] == last.sourceText;
    } else {
      assert k in EntitySlots(init);
      LastEntityWins(init, k);
      var i :| 0 <= i < |init| && init[i].entity == k && EntitySlots(init)[k] == init[i].sourceText
        && (forall j :: i < j < |init| ==> init[j].entity != k);
      assert es[i] == init[i];
      assert forall j :: i < j < |es| ==> es[j].entity != k by {
        forall j | i < j < |es| ensures es[j].entity != k {
          if j < |init| { assert es[j] == init[j]; }
        }
      }
    }
  }

  /** A slot holds a truthy (non-empty) string. */
  predicate Filled(slots: map<string, string>, k: string) {
    k in slots && slots[k] != ""
  }

  /** `if (!slots[k] && v) slots[k] = v`: fill an empty slot, never override a filled one. */
  function FillEmpty(slots: map<string, string>, k: string, v: Option<string>): (r: map<string, string>)
    ensures Filled(slots, k) ==> r == slots
    ensures !Filled(slots, k) && v.Some? && v.value != "" ==> r == slots[k := v.value]
    ensures forall n :: n != k ==> (n in r <==> n in slots) && (n in slots ==> r[n] == slots[n])
  {
    if !Filled(slots, k) && v.Some? && v.value != "" then slots[k := v.value] else slots
  }

  /**
   * The normalisation step: yil becomes its first (19|20)dd (and is
   * dropped when there is none, as `undefined` is left out of the JSON),
   * kanal is lower-cased, urun upper-cased; empty slots stay as they are.
   */
  function Normalise(slots: map<string, string>): (r: map<string, string>)
    ensures Filled(slots, "yil") ==>
      match FirstYear(slots["yil"], Centuries)
      case Some(y) => "yil" in r && r["yil"] == y
      case None => "yil" !in r
    ensures Filled(slots, "kanal") ==> "kanal" in r && r["kanal"] == Lower(slots["kanal"])
    ensures Filled(slots, "urun") ==> "urun" in r && r["urun"] == Upper(slots["urun"])
    ensures forall n :: n !in {"yil", "kanal", "urun"} ==> (n in r <==> n in slots) && (n in slots ==> r[n] == slots[n])
    ensures forall n :: n in {"yil", "kanal", "urun"} && !Filled(slots, n) ==> (n in r <==> n in slots) && (n in slots ==> r[n] == slots[n])
  {
    var s1 :=
      if Filled(slots, "yil") then
        match FirstYear(slots["yil"], Centuries)
        case Some(y) => slots["yil" := y]
        case None => slots - {"yil"}
      else slots;
    var s2 := if Filled(s1, "kanal") then s1["kanal" := Lower(s1["kanal"])] else s1;
    if Filled(s2, "urun") then s2["urun" := Upper(s2["urun"])] else s2
  }

  /** Fallback values fill the empty slots, then the slots are normalised. */
  function Merge(slots: map<string, string>, fb: Extracted): map<string, string> {
    var s := FillEmpty(slots, "yil", fb.yil);
    var s := FillEmpty(s, "kanal", fb.kanal);
    var s := FillEmpty(s, "urun", fb.urun);
    Normalise(s)
  }

  /** The slots of a confident parse: NLU entities, then fallback values for empty slots, then normalisation. */
  function MergeSlots(text: string, es: seq<NluEntity>): map<string, string> {
    Merge(EntitySlots(es), FallbackExtract(text))
  }

  /**
   * The `/parse` handler on the request's text and the NLP library's
   * result for it.
   */
  function Parse(body: Option<string>, query: Option<string>, nlu: NluResult): (o: ParseOutcome)
    ensures IsBlank(RequestText(body, query)) <==> o == BadRequest("text required")
    ensures o.Fallback? <==> !IsBlank(RequestText(body, query)) && Confidence(nlu) < Threshold
    ensures o.Fallback? ==> o.suggestions == Suggestions && o.confidence == Confidence(nlu)
    ensures o.Parsed? ==>
      && nlu.intent == Some(o.intent) && o.intent != ""
      && o.confidence == nlu.score && o.confidence >= Threshold
      && o.slots == MergeSlots(RequestText(body, query), nlu.entities)
  {
    var text := RequestText(body, query);
    if Trim(text) == [] then BadRequest("text required")
    else
      var confidence := Confidence(nlu);
      if confidence < Threshold then Fallback(confidence, Suggestions)
      else Parsed(nlu.intent.value, confidence, MergeSlots(text, nlu.entities))
  }

  /**
   * A slot the NLU filled is never replaced by a fallback value: the final
   * value is the NLU's own text, normalised.
   */
  lemma NluSlotsWin(slots: map<string, string>, fb: Extracted, k: string)
    requires k in {"yil", "kanal", "urun"} && Filled(slots, k)
    ensures var r := Merge(slots, fb);
      && (k == "kanal" ==> "kanal" in r && r["kanal"] == Lower(slots[k]))
      && (k == "urun" ==> "urun" in r && r["urun"] == Upper(slots[k]))
      && (k == "yil" ==> (FirstYear(slots[k], Centuries).Some? ==> "yil" in r && r["yil"] == FirstYear(slots[k], Centuries).value))
  {
    var s1 := FillEmpty(slots, "yil", fb.yil);
    var s2 := FillEmpty(s1, "kanal", fb.kanal);
    var s3 := FillEmpty(s2, "urun", fb.urun);
    assert Merge(slots, fb) == Normalise(s3);
    assert Filled(s1, k) && s1[k] == slots[k];
    assert Filled(s2, k) && s2[k] == slots[k];
    assert Filled(s3, k) && s3[k] == slots[k];
  }

  /** An empty channel or product slot takes a non-empty fallback value, normalised. */
  lemma FallbackFillsEmptySlots(slots: map<string, string>, fb: Extracted)
    ensures var r := Merge(slots, fb);
      && (!Filled(slots, "kanal") && fb.kanal.Some? && fb.kanal.value != "" ==>
            "kanal" in r && r["kanal"] == Lower(fb.kanal.value))
      && (!Filled(slots, "urun") && fb.urun.Some? && fb.urun.value != "" ==>
            "urun" in r && r["urun"] == Upper(fb.urun.value))
  {
    var s1 := FillEmpty(slots, "yil", fb.yil);
    var s2 := FillEmpty(s1, "kanal", fb.kanal);
    var s3 := FillEmpty(s2, "urun", fb.urun);
    assert Merge(slots, fb) == Normalise(s3);
    if !Filled(slots, "kanal") && fb.kanal.Some? && fb.kanal.value != "" {
      assert !Filled(s1, "kanal");
      assert s2["kanal"] == fb.kanal.value;
      assert Filled(s3, "kanal") && s3["kanal"] == fb.kanal.value;
    }
    if !Filled(slots, "urun") && fb.urun.Some? && fb.urun.value != "" {
      assert !Filled(s2, "urun");
      assert Filled(s3, "urun") && s3["urun"] == fb.urun.value;
    }
  }

  /** A match of a year pattern is four characters starting with one of its centuries. */
  lemma FirstYearShape(t: string, cs: set<string>)
    ensures FirstYear(t, cs).Some? ==> |FirstYear(t, cs).value| == 4 && FirstYear(t, cs).value[..2] in cs
  {
    if FirstYear(t, cs).Some? {
      var i :| YearAt(t, cs, i) && NoYearBefore(t, cs, i) && FirstYear(t, cs).value == t[i..i + 4];
      assert t[i..i + 4][..2] == t[i..i + 2];
    }
  }

  /** Every year slot of a confident parse is a (19|20)dd year. */
  lemma ParsedYearIsAYear(body: Option<string>, query: Option<string>, nlu: NluResult)
    ensures var o := Parse(body, query, nlu);
      o.Parsed? && "yil" in o.slots && o.slots["yil"] != "" ==>
        |o.slots["yil"]| == 4 && o.slots["yil"][..2] in Centuries
  {
    var o := Parse(body, query, nlu);
    if o.Parsed? && "yil" in o.slots && o.slots["yil"] != "" {
      var fb := FallbackExtract(RequestText(body, query));
      var s1 := FillEmpty(EntitySlots(nlu.entities), "yil", fb.yil);
      var s2 := FillEmpty(s1, "kanal", fb.kanal);
      var s3 := FillEmpty(s2, "urun", fb.urun);
      assert o.slots == Normalise(s3);
      assert Filled(s3, "yil");
      FirstYearShape(s3["yil"], Centuries);
    }
  }

}
