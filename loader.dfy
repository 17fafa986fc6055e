/**
 * `load_data_from_json` after `json.load`: the checks that turn a decoded
 * document into `(users, revenue list)` or `(users, conversions)` groups,
 * their names, the significance level and the analysis type.
 */
module Loader {
  import opened Wrappers
  import opened Sums
  import opened Json
  import opened GroupStats

  datatype AnalysisType = Arpu | ConversionRate

  /** The `analysis_type` string `compare_groups` dispatches on. */
  function AnalysisTypeName(t: AnalysisType): string
  {
    match t
    case Arpu => "arpu"
    case ConversionRate => "conversion_rate"
  }

  /** `analysis_type in ['arpu', 'conversion_rate']` */
  function ParseAnalysisType(v: Value): (r: Option<AnalysisType>)
    ensures r.None? <==> v != Str("arpu") && v != Str("conversion_rate")
    ensures r.Some? ==> v == Str(AnalysisTypeName(r.value))
  {
    if v == Str("arpu") then Some(Arpu)
    else if v == Str("conversion_rate") then Some(ConversionRate)
    else None
  }

  /** One constructor per `ValueError` the loader raises. */
  datatype Reason =
    | NotADictionary
    | MissingGroups
    | GroupsNotAList
    | InvalidAnalysisType
    | InGroup(group: nat, problem: GroupProblem)

  /** The errors that name a group `i`. */
  datatype GroupProblem =
    | GroupNotADictionary
    | MissingUsers
    | InvalidUsers
    | InvalidTotalRevenue
    | InvalidConversionCount
    | PriceCountsNotAList
    | InEntry(entry: nat, entryProblem: EntryProblem)
    | MissingRevenueFormat
    | MissingConversions
    | InvalidConversions
    | ConversionsExceedUsers

  /** The errors that name entry `j` of a group's `price_counts`. */
  datatype EntryProblem =
    | EntryNotADictionary
    | MissingPriceOrCount
    | InvalidPrice
    | InvalidCount

  /** Every error leaves the loader as `ValueError("Error loading JSON file: ...")` around its reason. */
  datatype LoadError = LoadError(reason: Reason)

  /** What the loader returns: `groups, alpha, analysis_type, group_names`. */
  datatype Loaded = Loaded(groups: seq<Group>, alpha: Value, analysisType: AnalysisType, names: seq<Label>)

  // ---------------------------------------------------------------- element-wise parsing

  /**
   * Parsing a JSON list element by element, stopping at the first element
   * that raises, as the loader's `for ... in enumerate(...)` loops do.
   */
  function ParseEach<T>(f: (nat, Value) -> Result<T, Reason>, vs: seq<Value>): (r: Result<seq<T>, Reason>)
    ensures r.Success? <==> forall k :: 0 <= k < |vs| ==> f(k, vs[k]).Success?
    ensures r.Success? ==> |r.value| == |vs| && forall k :: 0 <= k < |vs| ==> f(k, vs[k]) == Success(r.value[k])
    ensures r.Failure? ==> exists k ::
      && 0 <= k < |vs| && f(k, vs[k]).Failure? && r.error == f(k, vs[k]).error
      && forall q :: 0 <= q < k ==> f(q, vs[q]).Success?
  {
    if vs == [] then Success([])
    else
      var init := ParseEach(f, vs[..|vs| - 1]);
      assert forall k :: 0 <= k < |vs| - 1 ==> vs[..|vs| - 1][k] == vs[k];
      if init.Failure? then Failure(init.error)
      else
        var last := f(|vs| - 1, vs[|vs| - 1]);
        if last.Failure? then Failure(last.error) else Success(init.value + [last.value])
  }

  /** The error of the first failing element is the one reported. */
  lemma ParseEachFirstFailure<T>(f: (nat, Value) -> Result<T, Reason>, vs: seq<Value>, k: nat)
    requires k < |vs| && f(k, vs[k]).Failure?
    requires forall q :: 0 <= q < k ==> f(q, vs[q]).Success?
    ensures ParseEach(f, vs) == Failure(f(k, vs[k]).error)
  {
  }

  /** Growing the parsed prefix by one element. */
  lemma ParseEachSnoc<T>(f: (nat, Value) -> Result<T, Reason>, vs: seq<Value>, j: nat)
    requires j < |vs| && ParseEach(f, vs[..j]).Success? && f(j, vs[j]).Success?
    ensures ParseEach(f, vs[..j + 1]) == Success(ParseEach(f, vs[..j]).value + [f(j, vs[j]).value])
  {
    assert vs[..j + 1][..j] == vs[..j];
  }

  // ---------------------------------------------------------------- price counts

  /** One `{"price": ..., "count": ...}` entry, as `(price, count)`. */
  function PriceCountEntry(i: nat, j: nat, v: Value): (r: Result<(real, nat), Reason>)
    ensures r.Success? <==>
      && v.Object? && "price" in v.fields && "count" in v.fields
      && AsNumber(v.fields["price"]).Some? && AsNumber(v.fields["price"]).value >= 0.0
      && AsInt(v.fields["count"]).Some? && AsInt(v.fields["count"]).value >= 0
    ensures r.Success? ==> r.value == (AsNumber(v.fields["price"]).value, AsInt(v.fields["count"]).value)
    ensures r.Failure? ==> r.error.InGroup? && r.error.group == i && r.error.problem.InEntry? && r.error.problem.entry == j
    // the checks in the order the loader makes them
    ensures !v.Object? ==> r == Failure(InGroup(i, InEntry(j, EntryNotADictionary)))
    ensures v.Object? && ("price" !in v.fields || "count" !in v.fields) ==>
      r == Failure(InGroup(i, InEntry(j, MissingPriceOrCount)))
    ensures (v.Object? && "price" in v.fields && "count" in v.fields &&
             (AsNumber(v.fields["price"]).None? || AsNumber(v.fields["price"]).value < 0.0)) ==>
      r == Failure(InGroup(i, InEntry(j, InvalidPrice)))
    ensures (v.Object? && "price" in v.fields && "count" in v.fields &&
             AsNumber(v.fields["price"]).Some? && AsNumber(v.fields["price"]).value >= 0.0 &&
             (AsInt(v.fields["count"]).None? || AsInt(v.fields["count"]).value < 0)) ==>
      r == Failure(InGroup(i, InEntry(j, InvalidCount)))
  {
    if !v.Object? then Failure(InGroup(i, InEntry(j, EntryNotADictionary)))
    else if "price" !in v.fields || "count" !in v.fields then Failure(InGroup(i, InEntry(j, MissingPriceOrCount)))
    else
      var price := AsNumber(v.fields["price"]);
      var count := AsInt(v.fields["count"]);
      if price.None? || price.value < 0.0 then Failure(InGroup(i, InEntry(j, InvalidPrice)))
      else if count.None? || count.value < 0 then Failure(InGroup(i, InEntry(j, InvalidCount)))
      else Success((price.value, count.value))
  }

  function EntryParser(i: nat): (nat, Value) -> Result<(real, nat), Reason>
  {
    (j: nat, v: Value) => PriceCountEntry(i, j, v)
  }

  /** The sum of the counts. */
  function TotalCount(es: seq<(real, nat)>): nat
  {
    if es == [] then 0 else TotalCount(es[..|es| - 1]) + es[|es| - 1].1
  }

  /** The sum of `price * count`. */
  function TotalValue(es: seq<(real, nat)>): real
  {
    if es == [] then 0.0 else TotalValue(es[..|es| - 1]) + es[|es| - 1].0 * es[|es| - 1].1 as real
  }

  /** `conversions.extend([price] * count)` over every entry. */
  function Expand(es: seq<(real, nat)>): (r: seq<real>)
    ensures |r| == TotalCount(es)
  {
    if es == [] then []
    else
      var last := es[|es| - 1];
      Expand(es[..|es| - 1]) + Repeat(last.0, last.1)
  }

  /** Non-negative prices expand to non-negative revenues. */
  lemma {:induction false} ExpandNonNegative(es: seq<(real, nat)>)
    requires forall k :: 0 <= k < |es| ==> es[k].0 >= 0.0
    ensures forall k :: 0 <= k < |Expand(es)| ==> Expand(es)[k] >= 0.0
  {
    if es != [] {
      var init := es[..|es| - 1];
      assert forall k :: 0 <= k < |init| ==> init[k] == es[k];
      ExpandNonNegative(init);
      var last := es[|es| - 1];
      assert Expand(es) == Expand(init) + Repeat(last.0, last.1);
    }
  }

  /** The expansion is the in-order concatenation of the entries' expansions. */
  lemma {:induction false} ExpandAppend(es: seq<(real, nat)>, fs: seq<(real, nat)>)
    ensures Expand(es + fs) == Expand(es) + Expand(fs)
    decreases |fs|
  {
    if fs == [] {
      assert es + fs == es;
    } else {
      var init, last := fs[..|fs| - 1], fs[|fs| - 1];
      var all := es + fs;
      assert all[..|all| - 1] == es + init;
      assert all[|all| - 1] == last;
      assert Expand(all) == Expand(es + init) + Repeat(last.0, last.1);
      ExpandAppend(es, init);
      assert Expand(fs) == Expand(init) + Repeat(last.0, last.1);
    }
  }

  /** The expanded revenue list adds up to `sum(price * count)`. */
  lemma {:induction false} ExpandSum(es: seq<(real, nat)>)
    ensures Sum(Expand(es)) == TotalValue(es)
  {
    if es != [] {
      var init, last := es[..|es| - 1], es[|es| - 1];
      var price, count := last.0, last.1;
      var front, back := Expand(init), Repeat(price, count);
      assert Expand(es) == front + back;
      ExpandSum(init);
      SumAppend(front, back);
      SumRepeat(price, count);
      assert Sum(back) == price * count as real;
    }
  }

  /** `[avg_price] * conversion_count`, or `[]` when the count is zero. */
  function AggregatedRevenues(total: real, count: nat): (r: seq<real>)
    requires total >= 0.0
    ensures |r| == count
    ensures count > 0 ==> forall k :: 0 <= k < count ==> r[k] * count as real == total
    ensures forall k :: 0 <= k < |r| ==> r[k] >= 0.0
  {
    if count > 0 then
      var avg := total / count as real;
      assert avg * count as real == total;
      Repeat(avg, count)
    else []
  }

  /** The aggregated format reproduces its total revenue. */
  lemma AggregatedSum(total: real, count: nat)
    requires total >= 0.0
    ensures Sum(AggregatedRevenues(total, count)) == (if count > 0 then total else 0.0)
  {
    if count > 0 {
      SumRepeat(total / count as real, count);
      assert count as real * (total / count as real) == total;
    }
  }

  // ---------------------------------------------------------------- groups

  /** The revenue list of an ARPU group: the aggregated format first, else `price_counts`. */
  function ParsedRevenues(i: nat, d: map<string, Value>): (r: Result<seq<real>, Reason>)
    ensures r.Success? ==> forall k :: 0 <= k < |r.value| ==> r.value[k] >= 0.0
    ensures r.Failure? ==> r.error.InGroup? && r.error.group == i
    // the aggregated format: both keys present
    ensures "total_revenue" in d && "conversion_count" in d ==>
      && (r.Success? <==>
            && AsNumber(d["total_revenue"]).Some? && AsNumber(d["total_revenue"]).value >= 0.0
            && AsInt(d["conversion_count"]).Some? && AsInt(d["conversion_count"]).value >= 0)
      && (r.Success? ==>
            r.value == AggregatedRevenues(AsNumber(d["total_revenue"]).value, AsInt(d["conversion_count"]).value))
      && (AsNumber(d["total_revenue"]).None? || AsNumber(d["total_revenue"]).value < 0.0 ==>
            r == Failure(InGroup(i, InvalidTotalRevenue)))
      && (AsNumber(d["total_revenue"]).Some? && AsNumber(d["total_revenue"]).value >= 0.0 &&
          (AsInt(d["conversion_count"]).None? || AsInt(d["conversion_count"]).value < 0) ==>
            r == Failure(InGroup(i, InvalidConversionCount)))
    // the price-counts format, looked at only when the aggregated one is absent
    ensures !("total_revenue" in d && "conversion_count" in d) && "price_counts" in d ==>
      && (r.Success? <==>
            d["price_counts"].Array? && ParseEach(EntryParser(i), d["price_counts"].items).Success?)
      && (r.Success? ==> r.value == Expand(ParseEach(EntryParser(i), d["price_counts"].items).value))
      && (!d["price_counts"].Array? ==> r == Failure(InGroup(i, PriceCountsNotAList)))
      && (d["price_counts"].Array? && r.Failure? ==>
            r.error == ParseEach(EntryParser(i), d["price_counts"].items).error)
    // neither format
    ensures !("total_revenue" in d && "conversion_count" in d) && "price_counts" !in d ==>
      r == Failure(InGroup(i, MissingRevenueFormat))
  {
    if "total_revenue" in d && "conversion_count" in d then
      var total := AsNumber(d["total_revenue"]);
      var count := AsInt(d["conversion_count"]);
      if total.None? || total.value < 0.0 then Failure(InGroup(i, InvalidTotalRevenue))
      else if count.None? || count.value < 0 then Failure(InGroup(i, InvalidConversionCount))
      else Success(AggregatedRevenues(total.value, count.value))
    else if "price_counts" in d then
      if !d["price_counts"].Array? then Failure(InGroup(i, PriceCountsNotAList))
      else
        match ParseEach(EntryParser(i), d["price_counts"].items)
        case Failure(e) => Failure(e)
        case Success(es) =>
          ExpandNonNegative(es);
          Success(Expand(es))
    else Failure(InGroup(i, MissingRevenueFormat))
  }

  /** One element of `groups`: the group and its name. */
  function ParsedGroup(kind: AnalysisType, i: nat, v: Value): (r: Result<(Group, Label), Reason>)
    ensures r.Success? ==>
      && v.Object? && "users" in v.fields
      && r.value.1 == Get(v.fields, "name", DefaultGroupName(i))
      && AsInt(v.fields["users"]) == Some(r.value.0.users) && r.value.0.users > 0
    ensures r.Success? && kind == Arpu ==>
      && r.value.0.RevenueGroup?
      && forall k :: 0 <= k < |r.value.0.revenues| ==> r.value.0.revenues[k] >= 0.0
    ensures r.Success? && kind == ConversionRate ==>
      && r.value.0.ConversionGroup?
      && "conversions" in v.fields && r.value.0.conversions == v.fields["conversions"]
      && AsInt(r.value.0.conversions).Some?
      && 0 <= AsInt(r.value.0.conversions).value <= r.value.0.users
    ensures r.Failure? ==> r.error.InGroup? && r.error.group == i
    ensures r.Success? <==>
      && v.Object? && "users" in v.fields
      && AsInt(v.fields["users"]).Some? && AsInt(v.fields["users"]).value > 0
      && (kind == Arpu ==> ParsedRevenues(i, v.fields).Success?)
      && (kind == ConversionRate ==>
            && "conversions" in v.fields && AsInt(v.fields["conversions"]).Some?
            && 0 <= AsInt(v.fields["conversions"]).value <= AsInt(v.fields["users"]).value)
    ensures r.Success? && kind == Arpu ==> r.value.0.revenues == ParsedRevenues(i, v.fields).value
    // the checks in the order the loader makes them
    ensures !v.Object? ==> r == Failure(InGroup(i, GroupNotADictionary))
    ensures v.Object? && "users" !in v.fields ==> r == Failure(InGroup(i, MissingUsers))
    ensures (v.Object? && "users" in v.fields &&
             (AsInt(v.fields["users"]).None? || AsInt(v.fields["users"]).value <= 0)) ==>
      r == Failure(InGroup(i, InvalidUsers))
    ensures (kind == Arpu && v.Object? && "users" in v.fields && r.Failure? &&
             AsInt(v.fields["users"]).Some? && AsInt(v.fields["users"]).value > 0) ==>
      r.error == ParsedRevenues(i, v.fields).error
    ensures (kind == ConversionRate && v.Object? && "users" in v.fields && r.Failure? &&
             AsInt(v.fields["users"]).Some? && AsInt(v.fields["users"]).value > 0) ==>
      r.error == InGroup(i,
        if "conversions" !in v.fields then MissingConversions
        else if AsInt(v.fields["conversions"]).None? || AsInt(v.fields["conversions"]).value < 0 then InvalidConversions
        else ConversionsExceedUsers)
  {
    if !v.Object? then Failure(InGroup(i, GroupNotADictionary))
    else if "users" !in v.fields then Failure(InGroup(i, MissingUsers))
    else
      var d := v.fields;
      var name := Get(d, "name", DefaultGroupName(i));
      var users := AsInt(d["users"]);
      if users.None? || users.value <= 0 then Failure(InGroup(i, InvalidUsers))
      else
        match kind
        case Arpu =>
          var revenues := ParsedRevenues(i, d);
          if revenues.Failure? then Failure(revenues.error)
          else Success((RevenueGroup(users.value, revenues.value), name))
        case ConversionRate =>
          if "conversions" !in d then Failure(InGroup(i, MissingConversions))
          else
            var c := AsInt(d["conversions"]);
            if c.None? || c.value < 0 then Failure(InGroup(i, InvalidConversions))
            else if c.value > users.value then Failure(InGroup(i, ConversionsExceedUsers))
            else Success((ConversionGroup(users.value, d["conversions"]), name))
  }

  function GroupParser(kind: AnalysisType): (nat, Value) -> Result<(Group, Label), Reason>
  {
    (i: nat, v: Value) => ParsedGroup(kind, i, v)
  }

  /**
   * When both aggregated keys are present, `price_counts` is never looked at:
   * removing it changes nothing.
   */
  lemma AggregatedTakesPriority(i: nat, d: map<string, Value>)
    requires "total_revenue" in d && "conversion_count" in d
    ensures ParsedGroup(Arpu, i, Object(d)) == ParsedGroup(Arpu, i, Object(d - {"price_counts"}))
  {
    var e := d - {"price_counts"};
    assert "users" in d <==> "users" in e;
    assert "name" in d <==> "name" in e;
    if "users" in d {
      assert d["users"] == e["users"];
    }
    if "name" in d {
      assert d["name"] == e["name"];
    }
    assert ParsedRevenues(i, d) == ParsedRevenues(i, e);
  }

  /** A price-count entry that raises rejects the whole group, whatever follows it. */
  lemma BadEntryRejectsGroup(i: nat, d: map<string, Value>, j: nat)
    requires "price_counts" in d && !("total_revenue" in d && "conversion_count" in d)
    requires d["price_counts"].Array? && j < |d["price_counts"].items|
    requires PriceCountEntry(i, j, d["price_counts"].items[j]).Failure?
    ensures ParsedRevenues(i, d).Failure?
  {
  }

  function GroupsOf(gs: seq<(Group, Label)>): (r: seq<Group>)
    ensures |r| == |gs| && forall k :: 0 <= k < |gs| ==> r[k] == gs[k].0
  {
    seq(|gs|, k requires 0 <= k < |gs| => gs[k].0)
  }

  function NamesOf(gs: seq<(Group, Label)>): (r: seq<Label>)
    ensures |r| == |gs| && forall k :: 0 <= k < |gs| ==> r[k] == gs[k].1
  {
    seq(|gs|, k requires 0 <= k < |gs| => gs[k].1)
  }

  /** The loader's checks in order, from the document shape down to every group. */
  function Parsed(data: Value): (r: Result<Loaded, LoadError>)
    ensures r.Success? ==>
      && data.Object? && "groups" in data.fields && data.fields["groups"].Array?
      && var items := data.fields["groups"].items;
      && Some(r.value.analysisType) == ParseAnalysisType(Get(data.fields, "analysis_type", Str("arpu")))
      && r.value.alpha == Get(data.fields, "alpha", Float(0.05))
      && |r.value.groups| == |r.value.names| == |items|
      && forall i :: 0 <= i < |items| ==>
           ParsedGroup(r.value.analysisType, i, items[i]) == Success((r.value.groups[i], r.value.names[i]))
    ensures r.Failure? <==>
      || !data.Object? || "groups" !in data.fields || !data.fields["groups"].Array?
      || ParseAnalysisType(Get(data.fields, "analysis_type", Str("arpu"))).None?
      || exists i :: 0 <= i < |data.fields["groups"].items| &&
           ParsedGroup(ParseAnalysisType(Get(data.fields, "analysis_type", Str("arpu"))).value, i,
             data.fields["groups"].items[i]).Failure?
    // the error reported is that of the first failing check
    ensures !data.Object? ==> r == Failure(LoadError(NotADictionary))
    ensures data.Object? && "groups" !in data.fields ==> r == Failure(LoadError(MissingGroups))
    ensures (data.Object? && "groups" in data.fields && !data.fields["groups"].Array?) ==>
      r == Failure(LoadError(GroupsNotAList))
    ensures (data.Object? && "groups" in data.fields && data.fields["groups"].Array? &&
             ParseAnalysisType(Get(data.fields, "analysis_type", Str("arpu"))).None?) ==>
      r == Failure(LoadError(InvalidAnalysisType))
    ensures (data.Object? && "groups" in data.fields && data.fields["groups"].Array? &&
             ParseAnalysisType(Get(data.fields, "analysis_type", Str("arpu"))).Some? && r.Failure?) ==>
      var kind := ParseAnalysisType(Get(data.fields, "analysis_type", Str("arpu"))).value;
      var items := data.fields["groups"].items;
      exists i ::
        && 0 <= i < |items| && ParsedGroup(kind, i, items[i]).Failure?
        && r.error == LoadError(ParsedGroup(kind, i, items[i]).error)
        && forall q :: 0 <= q < i ==> ParsedGroup(kind, q, items[q]).Success?
  {
    if !data.Object? then Failure(LoadError(NotADictionary))
    else if "groups" !in data.fields then Failure(LoadError(MissingGroups))
    else if !data.fields["groups"].Array? then Failure(LoadError(GroupsNotAList))
    else
      match ParseAnalysisType(Get(data.fields, "analysis_type", Str("arpu")))
      case None => Failure(LoadError(InvalidAnalysisType))
      case Some(kind) =>
        match ParseEach(GroupParser(kind), data.fields["groups"].items)
        case Failure(e) => Failure(LoadError(e))
        case Success(gs) =>
          Success(Loaded(GroupsOf(gs), Get(data.fields, "alpha", Float(0.05)), kind, NamesOf(gs)))
  }

  /**
   * The groups of a conversion-rate document all pass
   * `calculate_conversion_rate_stats`, so the comparison that follows does
   * not raise.
   */
  lemma LoadedConversionGroupsHaveStats(m: Numerics.Primitives, data: Value, alpha: real, i: nat)
    requires Numerics.Sound(m) && Parsed(data).Success? && Parsed(data).value.analysisType == ConversionRate
    requires i < |Parsed(data).value.groups|
    ensures ConversionRateStats(m, Parsed(data).value.groups[i].users, Parsed(data).value.groups[i].conversions, alpha).Success?
  {
    assert ParsedGroup(ConversionRate, i, data.fields["groups"].items[i]).Success?;
  }

  // ---------------------------------------------------------------- the loops

  /** The `price_counts` loop: validate each entry and extend the revenue list. */
  method ExpandPriceCounts(i: nat, pcs: seq<Value>) returns (r: Result<seq<real>, Reason>)
    ensures r.Success? <==> ParseEach(EntryParser(i), pcs).Success?
    ensures r.Success? ==> r.value == Expand(ParseEach(EntryParser(i), pcs).value)
    ensures r.Failure? ==> r.error == ParseEach(EntryParser(i), pcs).error
  {
    var conversions: seq<real> := [];
    for j := 0 to |pcs|
      invariant ParseEach(EntryParser(i), pcs[..j]).Success?
      invariant conversions == Expand(ParseEach(EntryParser(i), pcs[..j]).value)
    {
      var entry := PriceCountEntry(i, j, pcs[j]);
      if entry.Failure? {
        assert forall q :: 0 <= q < j ==> pcs[..j][q] == pcs[q];
        ParseEachFirstFailure(EntryParser(i), pcs, j);
        return Failure(entry.error);
      }
      ParseEachSnoc(EntryParser(i), pcs, j);
      var (price, count) := entry.value;
      conversions := conversions + Repeat(price, count);
    }
    assert pcs[..|pcs|] == pcs;
    return Success(conversions);
  }

  /** The body of the group loop. */
  method LoadGroup(kind: AnalysisType, i: nat, v: Value) returns (r: Result<(Group, Label), Reason>)
    ensures r == ParsedGroup(kind, i, v)
  {
    if !v.Object? {
      return Failure(InGroup(i, GroupNotADictionary));
    }
    var d := v.fields;
    if "users" !in d {
      return Failure(InGroup(i, MissingUsers));
    }
    var name := Get(d, "name", DefaultGroupName(i));
    var users := AsInt(d["users"]);
    if users.None? || users.value <= 0 {
      return Failure(InGroup(i, InvalidUsers));
    }
    if kind == Arpu {
      var conversions: seq<real> := [];
      if "total_revenue" in d && "conversion_count" in d {
        var total := AsNumber(d["total_revenue"]);
        var count := AsInt(d["conversion_count"]);
        if total.None? || total.value < 0.0 {
          return Failure(InGroup(i, InvalidTotalRevenue));
        }
        if count.None? || count.value < 0 {
          return Failure(InGroup(i, InvalidConversionCount));
        }
        if count.value > 0 {
          var avgPrice := total.value / count.value as real;
          conversions := Repeat(avgPrice, count.value);
        }
      } else if "price_counts" in d {
        if !d["price_counts"].Array? {
          return Failure(InGroup(i, PriceCountsNotAList));
        }
        var expanded := ExpandPriceCounts(i, d["price_counts"].items);
        if expanded.Failure? {
          return Failure(expanded.error);
        }
        conversions := expanded.value;
      } else {
        return Failure(InGroup(i, MissingRevenueFormat));
      }
      r := Success((RevenueGroup(users.value, conversions), name));
    } else {
      if "conversions" !in d {
        return Failure(InGroup(i, MissingConversions));
      }
      var conversions := AsInt(d["conversions"]);
      if conversions.None? || conversions.value < 0 {
        return Failure(InGroup(i, InvalidConversions));
      }
      if conversions.value > users.value {
        return Failure(InGroup(i, ConversionsExceedUsers));
      }
      r := Success((ConversionGroup(users.value, d["conversions"]), name));
    }
  }

  /** Appending a parsed group appends its group and its name. */
  lemma ProjectionsSnoc(gs: seq<(Group, Label)>, g: (Group, Label))
    ensures GroupsOf(gs + [g]) == GroupsOf(gs) + [g.0]
    ensures NamesOf(gs + [g]) == NamesOf(gs) + [g.1]
  {
    assert forall k :: 0 <= k < |gs| ==> (gs + [g])[k] == gs[k];
  }

  /** Past the document checks, `Parsed` is the outcome of parsing the groups in order. */
  lemma ParsedFromGroups(data: Value, kind: AnalysisType)
    requires data.Object? && "groups" in data.fields && data.fields["groups"].Array?
    requires ParseAnalysisType(Get(data.fields, "analysis_type", Str("arpu"))) == Some(kind)
    ensures ParseEach(GroupParser(kind), data.fields["groups"].items).Failure? ==>
      Parsed(data) == Failure(LoadError(ParseEach(GroupParser(kind), data.fields["groups"].items).error))
    ensures ParseEach(GroupParser(kind), data.fields["groups"].items).Success? ==>
      var gs := ParseEach(GroupParser(kind), data.fields["groups"].items).value;
      Parsed(data) == Success(Loaded(GroupsOf(gs), Get(data.fields, "alpha", Float(0.05)), kind, NamesOf(gs)))
  {
  }

  /** `load_data_from_json` from the decoded document on. */
  method LoadDataFromJson(data: Value) returns (r: Result<Loaded, LoadError>)
    ensures r == Parsed(data)
  {
    if !data.Object? {
      return Failure(LoadError(NotADictionary));
    }
    if "groups" !in data.fields {
      return Failure(LoadError(MissingGroups));
    }
    if !data.fields["groups"].Array? {
      return Failure(LoadError(GroupsNotAList));
    }
    var kind := ParseAnalysisType(Get(data.fields, "analysis_type", Str("arpu")));
    if kind.None? {
      return Failure(LoadError(InvalidAnalysisType));
    }
    var items := data.fields["groups"].items;
    var groups: seq<Group> := [];
    var names: seq<Label> := [];
    for i := 0 to |items|
      invariant ParseEach(GroupParser(kind.value), items[..i]).Success?
      invariant groups == GroupsOf(ParseEach(GroupParser(kind.value), items[..i]).value)
      invariant names == NamesOf(ParseEach(GroupParser(kind.value), items[..i]).value)
    {
      var g := LoadGroup(kind.value, i, items[i]);
      if g.Failure? {
        assert forall q :: 0 <= q < i ==> items[..i][q] == items[q];
        ParseEachFirstFailure(GroupParser(kind.value), items, i);
        ParsedFromGroups(data, kind.value);
        return Failure(LoadError(g.error));
      }
      ParseEachSnoc(GroupParser(kind.value), items, i);
      ProjectionsSnoc(ParseEach(GroupParser(kind.value), items[..i]).value, g.value);
      groups := groups + [g.value.0];
      names := names + [g.value.1];
    }
    assert items[..|items|] == items;
    ParsedFromGroups(data, kind.value);
    return Success(Loaded(groups, Get(data.fields, "alpha", Float(0.05)), kind.value, names));
  }
}
