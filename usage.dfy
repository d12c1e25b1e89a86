/**
 * The arithmetic of `get_api_usage_summary`: the totals over the usage records
 * of a period and the per-model breakdown the method builds in a loop. Money is
 * integer cents; a Python `dict` keeps insertion order, so the breakdown is an
 * association list in order of first appearance.
 */
module Usage {
  import opened Wrappers
  import opened Items
  import opened Text

  const COST_USD := "cost_usd"
  const TOKENS_USED := "tokens_used"
  const MODEL := "model"

  /** What one usage record contributes once its fields are read. */
  datatype Entry = Entry(model: Value, cost: int, tokens: int)

  /** One row of `model_breakdown`. */
  datatype ModelUsage = ModelUsage(model: Value, cost: int, tokens: int, calls: nat)

  datatype UsageSummary = UsageSummary(
    organizationId: string,
    periodDays: int,
    totalCostCents: int,
    totalTokens: int,
    totalCalls: nat,
    breakdown: seq<ModelUsage>)

  // ---------------------------------------------------------------------------
  // `int(s)` and `float(s)` on a string
  // ---------------------------------------------------------------------------

  predicate AllDigits(s: string) {
    forall i :: 0 <= i < |s| ==> IsDigit(s[i])
  }

  /** A leading `+` or `-`, as a factor, and what follows it. */
  function SignOf(s: string): (r: (int, string))
    ensures r.0 == 1 || r.0 == -1
    ensures s == r.1 || (|s| > 0 && s[1..] == r.1 && (s[0] == '-' <==> r.0 == -1))
  {
    if |s| > 0 && (s[0] == '+' || s[0] == '-') then (if s[0] == '-' then -1 else 1, s[1..]) else (1, s)
  }

  /**
   * `int(s)`: surrounding whitespace, an optional sign, then one or more
   * decimal digits; anything else is `None` (Python's `ValueError`).
   */
  function ParseInt(s: string): (r: Option<int>)
    ensures r.Some? ==> |Strip(s)| > 0
  {
    var signed := SignOf(Strip(s));
    if |signed.1| > 0 && AllDigits(signed.1) then Some(signed.0 * DigitsValue(signed.1)) else None
  }

  function DigitValue(c: char): int { c as int - '0' as int }

  /** The cents that one or two digits after the decimal point stand for. */
  function FractionCents(frac: string): (c: nat)
    requires AllDigits(frac) && |frac| <= 2
    ensures c < 100
  {
    if |frac| == 0 then 0
    else if |frac| == 1 then 10 * DigitValue(frac[0])
    else 10 * DigitValue(frac[0]) + DigitValue(frac[1])
  }

  /** Digits with an optional decimal point followed by at most two digits, at least one digit in all, in cents. */
  function UnsignedCents(t: string): Option<nat> {
    var dot := IndexOfFrom(t, '.', 0);
    var whole := if dot.Some? then t[..dot.value] else t;
    var frac := if dot.Some? then t[dot.value + 1..] else "";
    if |whole| + |frac| > 0 && AllDigits(whole) && AllDigits(frac) && |frac| <= 2
    then Some(100 * DigitsValue(whole) + FractionCents(frac))
    else None
  }

  /**
   * `float(s)` in cents: surrounding whitespace, an optional sign, then an
   * unsigned amount; anything else is `None` (Python's `ValueError`).
   */
  function ParseCents(s: string): (r: Option<int>)
    ensures r.Some? ==> |Strip(s)| > 0
  {
    var signed := SignOf(Strip(s));
    match UnsignedCents(signed.1)
    case Some(c) => Some(signed.0 * c)
    case None => None
  }

  /** A non-negative amount of cents written as dollars with two decimals, such as `3.05`. */
  function DollarsText(m: nat): (s: string)
    ensures |s| > 0 && s[0] != '-' && s[0] != '+' && !IsSpace(s[0]) && !IsSpace(s[|s| - 1])
  {
    NatToStringNoSign(m / 100);
    var whole := NatToString(m / 100);
    var s := whole + "." + [DigitChar(m % 100 / 10), DigitChar(m % 10)];
    assert s[0] == whole[0];
    s
  }

  /** Any amount of cents written as dollars with two decimals, such as `-3.05`. */
  function CentsText(c: int): (s: string)
    ensures |s| > 0 && !IsSpace(s[0]) && !IsSpace(s[|s| - 1])
  {
    if c < 0 then "-" + DollarsText(-c) else DollarsText(c)
  }

  lemma NatToStringNoSign(n: nat)
    ensures var s := NatToString(n); s[0] != '+' && s[0] != '-' && '.' !in s
  {
    var s := NatToString(n);
    assert IsDigit(s[0]);
    forall i | 0 <= i < |s| ensures s[i] != '.' {
      assert IsDigit(s[i]);
    }
  }

  /** `int(str(n)) == n`. */
  lemma ParseIntText(n: int)
    ensures ParseInt(IntText(n)) == Some(n)
  {
    var s := IntText(n);
    StripNoSpaceIdentity(s);
    var m: nat := if n < 0 then -n else n;
    NatToStringRoundTrip(m);
    NatToStringNoSign(m);
    if n < 0 {
      assert s[1..] == NatToString(m);
    }
  }

  /** The first point of `whole + "." + frac` is the one after `whole` when `whole` is all digits. */
  lemma FirstPoint(whole: string, frac: string)
    requires AllDigits(whole)
    ensures IndexOfFrom(whole + "." + frac, '.', 0) == Some(|whole|)
  {
    var s := whole + "." + frac;
    assert s[|whole|] == '.';
    assert forall k :: 0 <= k < |whole| ==> s[k] == whole[k];
  }

  /** Digits, a point and one or two more digits read as dollars and cents. */
  lemma UnsignedCentsParts(whole: string, frac: string)
    requires AllDigits(whole) && AllDigits(frac) && 1 <= |frac| <= 2
    ensures UnsignedCents(whole + "." + frac) == Some(100 * DigitsValue(whole) + FractionCents(frac))
  {
    var s := whole + "." + frac;
    FirstPoint(whole, frac);
    assert s[..|whole|] == whole;
    assert s[|whole| + 1..] == frac;
  }

  /** A string with no sign and no surrounding whitespace is read as an unsigned amount. */
  lemma ParseCentsUnsigned(s: string)
    requires |s| > 0 && s[0] != '+' && s[0] != '-' && !IsSpace(s[0]) && !IsSpace(s[|s| - 1])
    ensures ParseCents(s) == UnsignedCents(s)
  {
    StripNoSpaceIdentity(s);
    assert SignOf(s) == (1, s);
  }

  /** A leading minus negates the amount that follows it. */
  lemma ParseCentsNegated(s: string, v: nat)
    requires |s| > 0 && !IsSpace(s[|s| - 1]) && UnsignedCents(s) == Some(v)
    ensures ParseCents("-" + s) == Some(-(v as int))
  {
    var t := "-" + s;
    assert t[|t| - 1] == s[|s| - 1];
    StripNoSpaceIdentity(t);
    assert t[1..] == s;
    SignedCents(t, s, v);
  }

  lemma SignedCents(t: string, s: string, v: nat)
    requires Strip(t) == t && |t| > 0 && t[0] == '-' && t[1..] == s && UnsignedCents(s) == Some(v)
    ensures ParseCents(t) == Some(-(v as int))
  {
    assert SignOf(t) == (-1, s);
  }

  lemma TwoDigitCents(x: nat)
    requires x < 100
    ensures FractionCents([DigitChar(x / 10), DigitChar(x % 10)]) == x
  {
  }

  lemma DollarsTextUnsigned(m: nat)
    ensures UnsignedCents(DollarsText(m)) == Some(m)
  {
    var q, x := m / 100, m % 100;
    assert x / 10 == m % 100 / 10 && x % 10 == m % 10;
    var frac := [DigitChar(x / 10), DigitChar(x % 10)];
    assert DollarsText(m) == NatToString(q) + "." + frac;
    TwoDigitCents(x);
    NatToStringRoundTrip(q);
    UnsignedCentsParts(NatToString(q), frac);
  }

  /** Reading back an amount written with two decimals gives the same cents. */
  lemma ParseCentsText(c: int)
    ensures ParseCents(CentsText(c)) == Some(c)
  {
    if c < 0 {
      DollarsTextUnsigned(-c);
      ParseCentsNegated(DollarsText(-c), -c);
    } else {
      DollarsTextUnsigned(c);
      ParseCentsUnsigned(DollarsText(c));
    }
  }

  /** Blanks around an amount are ignored. */
  lemma StripPadded(s: string)
    requires |s| > 0 && !IsSpace(s[0]) && !IsSpace(s[|s| - 1])
    ensures Strip(" " + s + " ") == s
  {
    var p := " " + s + " ";
    assert p[1..] == s + " ";
    assert StripLeft(p) == StripLeft(s + " ");
    assert (s + " ")[0] == s[0];
    assert StripLeft(s + " ") == s + " ";
    assert (s + " ")[..|s|] == s;
    assert StripRight(s + " ") == StripRight(s);
  }

  lemma PaddedText(cents: int, tokens: int)
    ensures ParseCents(" " + CentsText(cents) + " ") == Some(cents)
    ensures ParseInt(" " + IntText(tokens) + " ") == Some(tokens)
  {
    StripPadded(CentsText(cents));
    StripPadded(IntText(tokens));
    ParseCentsText(cents);
    StripNoSpaceIdentity(CentsText(cents));
    ParseIntText(tokens);
    StripNoSpaceIdentity(IntText(tokens));
  }

  /** `float("0.05")` is five cents. */
  lemma FiveCents()
    ensures ParseCents("0.05") == Some(5)
  {
    assert DigitsValue("0") == 0 by { assert "0"[..0] == ""; }
    assert FractionCents("05") == 5;
    UnsignedCentsParts("0", "05");
    assert "0" + "." + "05" == "0.05";
    ParseCentsUnsigned("0.05");
  }

  /** A second decimal point makes the string unreadable. */
  lemma TwoPointsRejected()
    ensures ParseCents("1.2.3") == None
  {
    ParseCentsUnsigned("1.2.3");
    assert IndexOfFrom("1.2.3", '.', 0) == Some(1);
    assert "1.2.3"[2..] == "2.3" && !IsDigit("2.3"[1]);
  }

  lemma IntExamples()
    ensures ParseInt("1.5") == None && ParseInt("+") == None
  {
    StripNoSpaceIdentity("1.5");
    assert !IsDigit("1.5"[1]);
    StripNoSpaceIdentity("+");
    assert SignOf("+").1 == "";
  }

  // ---------------------------------------------------------------------------
  // Reading the records
  // ---------------------------------------------------------------------------

  /**
   * `float(v)` on a stored amount, in cents: a number is taken as it is,
   * `True` is one dollar, a string is parsed (`ValueError` when it is not a
   * number) and anything else raises `TypeError`.
   */
  function CostValue(v: Value): (r: Result<int, Error>)
    ensures v.Num? ==> r == Ok(v.n)
    ensures v.Str? && ParseCents(v.s).Some? ==> r == Ok(ParseCents(v.s).value)
    ensures v.Str? && ParseCents(v.s).None? ==> r.Err? && r.error.ValueError?
    ensures r.Err? && r.error.TypeError? <==> v.Null? || v.List? || v.Record?
  {
    match v
    case Num(n) => Ok(n)
    case Bool(b) => Ok(if b then 100 else 0)
    case Str(s) =>
      (match ParseCents(s)
       case Some(c) => Ok(c)
       case None => Err(ValueError("could not convert string to float")))
    case _ => Err(TypeError("float() argument must be a string or a real number"))
  }

  /**
   * `int(v)` on a stored token count: a number is taken as it is, `True` is 1,
   * a string is parsed (`ValueError` when it is not an integer) and anything
   * else raises `TypeError`.
   */
  function TokenValue(v: Value): (r: Result<int, Error>)
    ensures v.Num? ==> r == Ok(v.n)
    ensures v.Str? && ParseInt(v.s).Some? ==> r == Ok(ParseInt(v.s).value)
    ensures v.Str? && ParseInt(v.s).None? ==> r.Err? && r.error.ValueError?
    ensures r.Err? && r.error.TypeError? <==> v.Null? || v.List? || v.Record?
  {
    match v
    case Num(n) => Ok(n)
    case Bool(b) => Ok(if b then 1 else 0)
    case Str(s) =>
      (match ParseInt(s)
       case Some(n) => Ok(n)
       case None => Err(ValueError("invalid literal for int() with base 10")))
    case _ => Err(TypeError("int() argument must be a string or a real number"))
  }

  /** An amount stored as text reads back as the amount stored as a number. */
  lemma TextAmountsReadAsNumbers(cents: int, tokens: int)
    ensures CostValue(Str(CentsText(cents))) == CostValue(Num(cents))
    ensures TokenValue(Str(IntText(tokens))) == TokenValue(Num(tokens))
  {
    ParseCentsText(cents);
    ParseIntText(tokens);
  }

  /** Lists and maps cannot be dictionary keys. */
  predicate Hashable(v: Value) {
    !v.List? && !v.Record?
  }

  function ItemCost(item: Item): Result<int, Error> { CostValue(GetOr(item, COST_USD, Num(0))) }
  function ItemTokens(item: Item): Result<int, Error> { TokenValue(GetOr(item, TOKENS_USED, Num(0))) }
  function ItemModel(item: Item): Value { GetOr(item, MODEL, Str("unknown")) }

  /**
   * Reads one record: `cost_usd` and `tokens_used` default to 0 and `model`
   * to `'unknown'`; an amount that cannot be read raises, the cost first.
   */
  function EntryOf(item: Item): (r: Result<Entry, Error>)
    ensures r.Ok? <==> ItemCost(item).Ok? && ItemTokens(item).Ok? && Hashable(ItemModel(item))
    ensures ItemCost(item).Err? ==> r == Err(ItemCost(item).error)
    ensures ItemCost(item).Ok? && ItemTokens(item).Err? ==> r == Err(ItemTokens(item).error)
    ensures r.Ok? ==> r.value.model == ItemModel(item)
    ensures r.Ok? ==> r.value.cost == ItemCost(item).value && r.value.tokens == ItemTokens(item).value
    ensures r.Ok? && COST_USD !in item ==> r.value.cost == 0
    ensures r.Ok? && TOKENS_USED !in item ==> r.value.tokens == 0
    ensures r.Ok? && MODEL !in item ==> r.value.model == Str("unknown")
  {
    var cost :- ItemCost(item);
    var tokens :- ItemTokens(item);
    var model := ItemModel(item);
    if Hashable(model) then Ok(Entry(model, cost, tokens))
    else Err(TypeError("unhashable type"))
  }

  /** `e` is what `read` raises on the first record it cannot read. */
  predicate FirstFailure(items: seq<Item>, read: Item -> Result<int, Error>, e: Error) {
    exists i :: 0 <= i < |items| && read(items[i]) == Err(e) && forall j :: 0 <= j < i ==> read(items[j]).Ok?
  }

  /** A `sum(read(item) for item in items)` pass: every value, or the first failure. */
  function ReadAll(items: seq<Item>, read: Item -> Result<int, Error>): (r: Result<seq<int>, Error>)
    ensures r.Ok? <==> forall i :: 0 <= i < |items| ==> read(items[i]).Ok?
    ensures r.Ok? ==> |r.value| == |items| && forall i :: 0 <= i < |items| ==> r.value[i] == read(items[i]).value
    ensures r.Err? ==> FirstFailure(items, read, r.error)
  {
    if |items| == 0 then Ok([])
    else if read(items[0]).Err? then
      assert read(items[0]) == Err(read(items[0]).error);
      Err(read(items[0]).error)
    else
      var rest := ReadAll(items[1..], read);
      if rest.Err? then
        var i :| 0 <= i < |items| - 1 && read(items[1..][i]) == Err(rest.error)
                 && forall j :: 0 <= j < i ==> read(items[1..][j]).Ok?;
        assert forall j :: 0 <= j < i + 1 ==> read(items[j]).Ok? by {
          forall j | 0 <= j < i + 1 ensures read(items[j]).Ok? {
            if j > 0 { assert items[j] == items[1..][j - 1]; }
          }
        }
        assert read(items[i + 1]) == Err(rest.error);
        Err(rest.error)
      else
        assert forall i :: 0 < i < |items| ==> items[i] == items[1..][i - 1];
        Ok([read(items[0]).value] + rest.value)
  }

  /**
   * What the summary raises: the first amount that cannot be read (the cost
   * sum runs first), else the first token count that cannot be read, else
   * `TypeError` for a model that cannot be a dictionary key.
   */
  ghost predicate SummaryError(items: seq<Item>, e: Error) {
    if exists i :: 0 <= i < |items| && ItemCost(items[i]).Err? then FirstFailure(items, ItemCost, e)
    else if exists i :: 0 <= i < |items| && ItemTokens(items[i]).Err? then FirstFailure(items, ItemTokens, e)
    else e.TypeError?
  }

  /** Every record read, or what the summary raises. */
  function Entries(items: seq<Item>): (r: Result<seq<Entry>, Error>)
    ensures r.Ok? <==> forall i :: 0 <= i < |items| ==> EntryOf(items[i]).Ok?
    ensures r.Err? ==> SummaryError(items, r.error)
    ensures r.Ok? ==> |r.value| == |items|
    ensures r.Ok? ==> forall i :: 0 <= i < |items| ==> r.value[i] == EntryOf(items[i]).value
  {
    var costs := ReadAll(items, ItemCost);
    if costs.Err? then Err(costs.error)
    else
      var tokens := ReadAll(items, ItemTokens);
      if tokens.Err? then Err(tokens.error)
      else if forall i :: 0 <= i < |items| ==> Hashable(ItemModel(items[i])) then
        Ok(seq(|items|, i requires 0 <= i < |items| => Entry(ItemModel(items[i]), costs.value[i], tokens.value[i])))
      else Err(TypeError("unhashable type"))
  }

  function EntryCost(e: Entry): int { e.cost }
  function EntryTokens(e: Entry): int { e.tokens }
  function EntryCall(e: Entry): int { 1 }

  /** `sum(f(e) for e in es)`. */
  function Tally(es: seq<Entry>, f: Entry -> int): int {
    if |es| == 0 then 0 else Tally(es[..|es| - 1], f) + f(es[|es| - 1])
  }

  /** The same sum restricted to the records of one model. */
  function TallyFor(es: seq<Entry>, model: Value, f: Entry -> int): int {
    if |es| == 0 then 0
    else TallyFor(es[..|es| - 1], model, f) + (if es[|es| - 1].model == model then f(es[|es| - 1]) else 0)
  }

  function UsageCost(u: ModelUsage): int { u.cost }
  function UsageTokens(u: ModelUsage): int { u.tokens }
  function UsageCalls(u: ModelUsage): int { u.calls }

  /** A column total of the breakdown. */
  function SumOf(bd: seq<ModelUsage>, f: ModelUsage -> int): int {
    if |bd| == 0 then 0 else SumOf(bd[..|bd| - 1], f) + f(bd[|bd| - 1])
  }

  predicate HasModel(bd: seq<ModelUsage>, model: Value) {
    exists j | 0 <= j < |bd| :: bd[j].model == model
  }

  predicate DistinctModels(bd: seq<ModelUsage>) {
    forall j, k :: 0 <= j < k < |bd| ==> bd[j].model != bd[k].model
  }

  /** Some record names `model`. */
  predicate Occurs(es: seq<Entry>, model: Value) {
    exists i | 0 <= i < |es| :: es[i].model == model
  }

  /** The position of the first record of `model`. */
  function FirstIndex(es: seq<Entry>, model: Value): (r: nat)
    requires Occurs(es, model)
    ensures r < |es| && es[r].model == model
    ensures forall i :: 0 <= i < r ==> es[i].model != model
  {
    if es[0].model == model then 0
    else
      assert Occurs(es[1..], model) by {
        var i :| 0 <= i < |es| && es[i].model == model;
        assert es[1..][i - 1] == es[i];
      }
      var r := FirstIndex(es[1..], model);
      assert forall i :: 1 <= i < r + 1 ==> es[i] == es[1..][i - 1];
      r + 1
  }

  /** The models of `es`, each once, in the order they first appear. */
  function FirstSeenModels(es: seq<Entry>): (r: seq<Value>)
    ensures forall m :: m in r <==> Occurs(es, m)
    ensures forall j, k :: 0 <= j < k < |r| ==> r[j] != r[k]
  {
    if |es| == 0 then []
    else
      var init := es[..|es| - 1];
      var p := FirstSeenModels(init);
      var m := es[|es| - 1].model;
      assert forall x :: Occurs(es, x) <==> Occurs(init, x) || x == m by {
        forall x ensures Occurs(es, x) <==> Occurs(init, x) || x == m {
          if Occurs(init, x) {
            var i :| 0 <= i < |init| && init[i].model == x;
            assert es[i] == init[i];
          }
          if Occurs(es, x) && x != m {
            var i :| 0 <= i < |es| && es[i].model == x;
            assert init[i] == es[i];
          }
        }
      }
      if m in p then p else p + [m]
  }

  /**
   * `bd` lists the models of `es` in the order they first appear, one row
   * each. Rows are told apart by `Value` equality; Python's dictionary would
   * also merge keys that compare equal across types, such as `True`, `1`
   * and `Decimal(1)`, which the records never mix.
   */
  ghost predicate RowsInFirstSeenOrder(es: seq<Entry>, bd: seq<ModelUsage>) {
    |bd| == |FirstSeenModels(es)| && forall j :: 0 <= j < |bd| ==> bd[j].model == FirstSeenModels(es)[j]
  }

  /** Each row holds its model's call count and sums. */
  ghost predicate RowsTally(es: seq<Entry>, bd: seq<ModelUsage>) {
    forall j :: 0 <= j < |bd| ==>
      && bd[j].calls == TallyFor(es, bd[j].model, EntryCall)
      && bd[j].tokens == TallyFor(es, bd[j].model, EntryTokens)
      && bd[j].cost == TallyFor(es, bd[j].model, EntryCost)
  }

  /** The rows add up to the totals over all records. */
  ghost predicate ColumnsTotal(es: seq<Entry>, bd: seq<ModelUsage>) {
    && SumOf(bd, UsageCalls) == |es|
    && SumOf(bd, UsageTokens) == Tally(es, EntryTokens)
    && SumOf(bd, UsageCost) == Tally(es, EntryCost)
  }

  /**
   * `bd` is the breakdown of `es`: one row per model that occurs, in the
   * order the models first appear, each row holding that model's call count
   * and sums, and the rows adding up to the totals over all records.
   */
  ghost predicate IsBreakdownOf(es: seq<Entry>, bd: seq<ModelUsage>) {
    RowsInFirstSeenOrder(es, bd) && RowsTally(es, bd) && ColumnsTotal(es, bd)
  }

  /**
   * A breakdown has a row for every record's model and none for a model no
   * record names, each model once.
   */
  lemma BreakdownRows(es: seq<Entry>, bd: seq<ModelUsage>)
    requires IsBreakdownOf(es, bd)
    ensures DistinctModels(bd)
    ensures forall i :: 0 <= i < |es| ==> HasModel(bd, es[i].model)
    ensures forall j :: 0 <= j < |bd| ==> Occurs(es, bd[j].model)
  {
    var models := FirstSeenModels(es);
    forall i | 0 <= i < |es| ensures HasModel(bd, es[i].model) {
      assert Occurs(es, es[i].model);
      var j :| 0 <= j < |models| && models[j] == es[i].model;
      assert bd[j].model == es[i].model;
    }
    forall j | 0 <= j < |bd| ensures Occurs(es, bd[j].model) {
      assert models[j] in models;
    }
  }

  /** Once a model has occurred, later records do not move its first position. */
  lemma FirstIndexOfPrefix(es: seq<Entry>, n: nat, model: Value)
    requires n <= |es| && Occurs(es[..n], model)
    ensures Occurs(es, model) && FirstIndex(es, model) == FirstIndex(es[..n], model)
  {
    var f := FirstIndex(es[..n], model);
    assert es[f] == es[..n][f];
    assert forall i :: 0 <= i < f ==> es[i] == es[..n][i];
  }

  /** The rows' order is the order in which their models first appear in the records. */
  lemma {:induction false} FirstSeenOrder(es: seq<Entry>, j: nat, k: nat)
    requires j < k < |FirstSeenModels(es)|
    ensures Occurs(es, FirstSeenModels(es)[j]) && Occurs(es, FirstSeenModels(es)[k])
    ensures FirstIndex(es, FirstSeenModels(es)[j]) < FirstIndex(es, FirstSeenModels(es)[k])
  {
    var models := FirstSeenModels(es);
    assert models[j] in models && models[k] in models;
    var n := |es| - 1;
    var init := es[..n];
    var p := FirstSeenModels(init);
    assert init == es[..|es| - 1];
    if k < |p| {
      assert models[j] == p[j] && models[k] == p[k];
      assert p[j] in p && p[k] in p;
      FirstSeenOrder(init, j, k);
      FirstIndexOfPrefix(es, n, p[j]);
      FirstIndexOfPrefix(es, n, p[k]);
    } else {
      var m := es[n].model;
      assert m !in p && models[k] == m && models[j] == p[j];
      assert p[j] in p;
      FirstIndexOfPrefix(es, n, p[j]);
      assert forall i :: 0 <= i < n ==> es[i] == init[i];
    }
  }

  lemma {:induction false} SumOfUpdate(bd: seq<ModelUsage>, j: nat, x: ModelUsage, f: ModelUsage -> int)
    requires j < |bd|
    ensures SumOf(bd[j := x], f) == SumOf(bd, f) - f(bd[j]) + f(x)
  {
    var n := |bd| - 1;
    if j < n {
      SumOfUpdate(bd[..n], j, x, f);
      assert bd[j := x][..n] == bd[..n][j := x];
    } else {
      assert bd[j := x][..n] == bd[..n];
    }
  }

  lemma SumOfAppend(bd: seq<ModelUsage>, x: ModelUsage, f: ModelUsage -> int)
    ensures SumOf(bd + [x], f) == SumOf(bd, f) + f(x)
  {
    assert (bd + [x])[..|bd|] == bd;
  }

  /** A model that does not occur contributes nothing. */
  lemma {:induction false} TallyForAbsent(es: seq<Entry>, model: Value, f: Entry -> int)
    requires forall i :: 0 <= i < |es| ==> es[i].model != model
    ensures TallyFor(es, model, f) == 0
  {
    if |es| > 0 {
      TallyForAbsent(es[..|es| - 1], model, f);
    }
  }

  /** Extending the records by one extends every sum by that record's share. */
  lemma TallyStep(es: seq<Entry>, i: nat, model: Value, f: Entry -> int)
    requires i < |es|
    ensures Tally(es[..i + 1], f) == Tally(es[..i], f) + f(es[i])
    ensures TallyFor(es[..i + 1], model, f) == TallyFor(es[..i], model, f) + (if es[i].model == model then f(es[i]) else 0)
  {
    assert es[..i + 1][..i] == es[..i];
  }

  /** The row of `model`, if the breakdown has one. */
  function RowOf(bd: seq<ModelUsage>, model: Value): (r: Option<nat>)
    ensures r.Some? ==> r.value < |bd| && bd[r.value].model == model
    ensures r.None? ==> !HasModel(bd, model)
  {
    if |bd| == 0 then None
    else if bd[|bd| - 1].model == model then Some(|bd| - 1)
    else
      var r := RowOf(bd[..|bd| - 1], model);
      assert r.None? ==> forall j :: 0 <= j < |bd| ==> bd[j].model != model by {
        if r.None? {
          forall j | 0 <= j < |bd| ensures bd[j].model != model {
            if j < |bd| - 1 { assert bd[..|bd| - 1][j] == bd[j]; }
          }
        }
      }
      r
  }

  /** One more record adds its model at the end of the first-seen list, unless it has occurred already. */
  lemma FirstSeenStep(es: seq<Entry>, i: nat)
    requires i < |es|
    ensures FirstSeenModels(es[..i + 1]) ==
      if Occurs(es[..i], es[i].model) then FirstSeenModels(es[..i]) else FirstSeenModels(es[..i]) + [es[i].model]
  {
    assert es[..i + 1][..i] == es[..i];
  }

  /** Rows in first-seen order have a row for exactly the models that occur. */
  lemma RowsMatchOccurs(es: seq<Entry>, bd: seq<ModelUsage>, model: Value)
    requires RowsInFirstSeenOrder(es, bd)
    ensures HasModel(bd, model) <==> Occurs(es, model)
  {
    var models := FirstSeenModels(es);
    if Occurs(es, model) {
      var j :| 0 <= j < |models| && models[j] == model;
      assert bd[j].model == model;
    }
  }

  /** A model seen for the first time gets a row of its own, appended. */
  lemma NewRowKeepsBreakdown(es: seq<Entry>, i: nat, bd: seq<ModelUsage>)
    requires i < |es| && IsBreakdownOf(es[..i], bd)
    requires !HasModel(bd, es[i].model)
    ensures IsBreakdownOf(es[..i + 1], bd + [ModelUsage(es[i].model, es[i].cost, es[i].tokens, 1)])
  {
    var e := es[i];
    var row := ModelUsage(e.model, e.cost, e.tokens, 1);
    var bd' := bd + [row];
    RowsMatchOccurs(es[..i], bd, e.model);
    FirstSeenStep(es, i);
    assert RowsInFirstSeenOrder(es[..i + 1], bd');
    TallyStep(es, i, e.model, EntryCall);
    TallyStep(es, i, e.model, EntryTokens);
    TallyStep(es, i, e.model, EntryCost);
    TallyForAbsent(es[..i], e.model, EntryCall);
    TallyForAbsent(es[..i], e.model, EntryTokens);
    TallyForAbsent(es[..i], e.model, EntryCost);
    forall j | 0 <= j < |bd'|
      ensures bd'[j].calls == TallyFor(es[..i + 1], bd'[j].model, EntryCall)
      ensures bd'[j].tokens == TallyFor(es[..i + 1], bd'[j].model, EntryTokens)
      ensures bd'[j].cost == TallyFor(es[..i + 1], bd'[j].model, EntryCost)
    {
      TallyStep(es, i, bd'[j].model, EntryCall);
      TallyStep(es, i, bd'[j].model, EntryTokens);
      TallyStep(es, i, bd'[j].model, EntryCost);
    }
    SumOfAppend(bd, row, UsageCalls);
    SumOfAppend(bd, row, UsageTokens);
    SumOfAppend(bd, row, UsageCost);
  }

  /** A model seen before has its row's counters advanced in place. */
  lemma BumpRowKeepsBreakdown(es: seq<Entry>, i: nat, bd: seq<ModelUsage>, j: nat)
    requires i < |es| && IsBreakdownOf(es[..i], bd)
    requires j < |bd| && bd[j].model == es[i].model
    ensures IsBreakdownOf(es[..i + 1], bd[j := ModelUsage(es[i].model, bd[j].cost + es[i].cost, bd[j].tokens + es[i].tokens, bd[j].calls + 1)])
  {
    BreakdownRows(es[..i], bd);
    BumpRowOrder(es, i, bd, j);
    BumpRowTally(es, i, bd, j);
    BumpRowTotals(es, i, bd, j);
  }

  /** Advancing a row leaves the models and their order as they were. */
  lemma BumpRowOrder(es: seq<Entry>, i: nat, bd: seq<ModelUsage>, j: nat)
    requires i < |es| && RowsInFirstSeenOrder(es[..i], bd)
    requires j < |bd| && bd[j].model == es[i].model
    ensures RowsInFirstSeenOrder(es[..i + 1], bd[j := ModelUsage(es[i].model, bd[j].cost + es[i].cost, bd[j].tokens + es[i].tokens, bd[j].calls + 1)])
  {
    RowsMatchOccurs(es[..i], bd, es[i].model);
    FirstSeenStep(es, i);
  }

  /** Advancing a row by one record advances the column totals by that record. */
  lemma BumpRowTotals(es: seq<Entry>, i: nat, bd: seq<ModelUsage>, j: nat)
    requires i < |es| && ColumnsTotal(es[..i], bd)
    requires j < |bd| && bd[j].model == es[i].model
    ensures ColumnsTotal(es[..i + 1], bd[j := ModelUsage(es[i].model, bd[j].cost + es[i].cost, bd[j].tokens + es[i].tokens, bd[j].calls + 1)])
  {
    var e := es[i];
    var row := ModelUsage(e.model, bd[j].cost + e.cost, bd[j].tokens + e.tokens, bd[j].calls + 1);
    TallyStep(es, i, e.model, EntryTokens);
    TallyStep(es, i, e.model, EntryCost);
    SumOfUpdate(bd, j, row, UsageCalls);
    SumOfUpdate(bd, j, row, UsageTokens);
    SumOfUpdate(bd, j, row, UsageCost);
  }

  /** Advancing the row of the record's model keeps every row equal to its model's sums. */
  lemma BumpRowTally(es: seq<Entry>, i: nat, bd: seq<ModelUsage>, j: nat)
    requires i < |es| && RowsTally(es[..i], bd)
    requires j < |bd| && bd[j].model == es[i].model
    requires DistinctModels(bd)
    ensures RowsTally(es[..i + 1], bd[j := ModelUsage(es[i].model, bd[j].cost + es[i].cost, bd[j].tokens + es[i].tokens, bd[j].calls + 1)])
  {
    var e := es[i];
    var bd' := bd[j := ModelUsage(e.model, bd[j].cost + e.cost, bd[j].tokens + e.tokens, bd[j].calls + 1)];
    forall j2 | 0 <= j2 < |bd'|
      ensures bd'[j2].calls == TallyFor(es[..i + 1], bd'[j2].model, EntryCall)
      ensures bd'[j2].tokens == TallyFor(es[..i + 1], bd'[j2].model, EntryTokens)
      ensures bd'[j2].cost == TallyFor(es[..i + 1], bd'[j2].model, EntryCost)
    {
      TallyStep(es, i, bd'[j2].model, EntryCall);
      TallyStep(es, i, bd'[j2].model, EntryTokens);
      TallyStep(es, i, bd'[j2].model, EntryCost);
    }
  }

  /** The `for item in items` loop that fills `model_breakdown`. */
  method Breakdown(es: seq<Entry>) returns (bd: seq<ModelUsage>)
    ensures IsBreakdownOf(es, bd)
  {
    bd := [];
    var i := 0;
    while i < |es|
      invariant 0 <= i <= |es|
      invariant IsBreakdownOf(es[..i], bd)
    {
      var e := es[i];
      match RowOf(bd, e.model) {
        case None =>
          NewRowKeepsBreakdown(es, i, bd);
          bd := bd + [ModelUsage(e.model, e.cost, e.tokens, 1)];
        case Some(j) =>
          BumpRowKeepsBreakdown(es, i, bd, j);
          bd := bd[j := ModelUsage(e.model, bd[j].cost + e.cost, bd[j].tokens + e.tokens, bd[j].calls + 1)];
      }
      i := i + 1;
    }
    assert es[..i] == es;
  }

  /** What `get_api_usage_summary` returns for the records it selected, or raises. */
  ghost predicate SummaryOutcome(organizationId: string, days: int, items: seq<Item>, r: Result<UsageSummary, Error>) {
    && (r.Err? <==> exists i :: 0 <= i < |items| && EntryOf(items[i]).Err?)
    && (r.Err? ==> SummaryError(items, r.error))
    && (r.Ok? ==>
          var es := Entries(items).value;
          && r.value.organizationId == organizationId
          && r.value.periodDays == days
          && r.value.totalCalls == |items|
          && r.value.totalTokens == Tally(es, EntryTokens)
          && r.value.totalCostCents == Tally(es, EntryCost)
          && IsBreakdownOf(es, r.value.breakdown))
  }

  /** The totals, then the breakdown, over the records of the period. */
  method Summarize(organizationId: string, days: int, items: seq<Item>) returns (r: Result<UsageSummary, Error>)
    ensures SummaryOutcome(organizationId, days, items, r)
  {
    match Entries(items) {
      case Err(e) =>
        r := Err(e);
      case Ok(es) =>
        var bd := Breakdown(es);
        r := Ok(UsageSummary(organizationId, days, Tally(es, EntryCost), Tally(es, EntryTokens), |items|, bd));
    }
  }
}
