/** Incremental validation of effect parameters, from audio_effect_params.h, against full validation. */
module ParamValidation {
  import opened Options

  /** A double: the rules compare with infinities and with values that are no number. */
  datatype Number = Finite(value: real) | Infinity(positive: bool) | NotANumber

  /** Equality of doubles: what is no number equals nothing. */
  predicate Same(a: Number, b: Number) {
    a == b && !a.NotANumber?
  }

  predicate Exceeds(a: Number, limit: real) {
    (a.Finite? && a.value > limit) || a == Infinity(true)
  }

  datatype Error = Okay | InvalidValue | OutOfRange

  datatype Kind = Double | Whole | Choice

  datatype Bound = Fixed | Nyquist

  /** While a sibling has one of the values, this parameter may not exceed the cap. */
  datatype Rule = Rule(key: string, values: seq<int>, capMax: real, inactive: bool)

  datatype Desc = Desc(key: string, kind: Kind, min: real, max: real, minExclusive: bool, maxBound: Bound,
                       options: seq<int>, rules: seq<Rule>)

  datatype Group = Group(members: seq<Desc>, minCount: int, maxCount: int)

  datatype Schema = Schema(params: seq<Desc>, groups: seq<Group>)

  /** Origin is the committed index an entry was copied from, or -1. */
  datatype Entry = Entry(values: seq<Number>, origin: int)

  datatype State = State(params: seq<Number>, groups: seq<seq<Entry>>)

  // ---------------------------------------------------------------- single values

  predicate IsWhole(x: real) {
    x.Floor as real == x
  }

  predicate Offered(d: Desc, x: real) {
    exists i :: 0 <= i < |d.options| && d.options[i] as real == x
  }

  /** Within the bounds; a Nyquist bound is exclusive, and absent without a rate. */
  predicate InBounds(d: Desc, x: real, rate: int) {
    && (if d.minExclusive then x > d.min else x >= d.min)
    && (if d.maxBound == Nyquist then rate <= 0 || x < rate as real * 0.5 else x <= d.max)
  }

  predicate Acceptable(d: Desc, v: Number, rate: int) {
    && v.Finite?
    && (d.kind != Double ==> IsWhole(v.value))
    && (if d.kind == Choice then Offered(d, v.value) else InBounds(d, v.value, rate))
  }

  /** check_param() */
  method CheckParam(d: Desc, v: Number, rate: int) returns (e: Error)
    ensures e == if Acceptable(d, v, rate) then Okay else InvalidValue
  {
    if !v.Finite? {
      return InvalidValue;
    }
    var x := v.value;
    if d.kind != Double {
      if x != x.Floor as real {
        return InvalidValue;
      }
      if d.kind == Choice {
        for i := 0 to |d.options|
          invariant forall j :: 0 <= j < i ==> d.options[j] as real != x
        {
          if d.options[i] as real == x {
            return Okay;
          }
        }
        return InvalidValue;
      }
    }
    if (d.minExclusive && x <= d.min) || (!d.minExclusive && x < d.min) {
      return InvalidValue;
    }
    if d.maxBound == Nyquist {
      if rate > 0 && x >= rate as real * 0.5 {
        return InvalidValue;
      }
    } else if x > d.max {
      return InvalidValue;
    }
    return Okay;
  }

  // ---------------------------------------------------------------- rules between siblings

  predicate Triggers(r: Rule, sibling: Desc, v: Number) {
    !r.inactive && sibling.key == r.key && exists i :: 0 <= i < |r.values| && Same(Finite(r.values[i] as real), v)
  }

  /** Rule r of member m is broken by sibling s. */
  predicate Breaks(members: seq<Desc>, values: seq<Number>, m: nat, r: nat, s: nat)
    requires |members| == |values| && m < |members| && r < |members[m].rules| && s < |members|
  {
    Triggers(members[m].rules[r], members[s], values[s]) && Exceeds(values[m], members[m].rules[r].capMax)
  }

  predicate MemberKeepsRules(members: seq<Desc>, values: seq<Number>, m: nat)
    requires |members| == |values| && m < |members|
  {
    forall r, s :: 0 <= r < |members[m].rules| && 0 <= s < |members| ==> !Breaks(members, values, m, r, s)
  }

  predicate KeepsRules(members: seq<Desc>, values: seq<Number>)
    requires |members| == |values|
  {
    forall m :: 0 <= m < |members| ==> MemberKeepsRules(members, values, m)
  }

  /** A sibling has value i of the rule while the member is above its cap. */
  ghost predicate Forbidden(members: seq<Desc>, values: seq<Number>, m: nat, r: nat, s: nat, i: nat)
    requires |members| == |values| && m < |members| && r < |members[m].rules| && s < |members|
    requires forall k :: 0 <= k < |values| ==> values[k].Finite?
  {
    var rule := members[m].rules[r];
    && i < |rule.values| && !rule.inactive && members[s].key == rule.key
    && values[s].value == rule.values[i] as real && !(values[m].value <= rule.capMax)
  }

  /** Of finite values, the rules are kept exactly if nothing forbidden occurs. */
  lemma RulesMean(members: seq<Desc>, values: seq<Number>)
    requires |members| == |values| && forall k :: 0 <= k < |values| ==> values[k].Finite?
    ensures KeepsRules(members, values) <==>
            forall m, r, s, i :: 0 <= m < |members| && 0 <= r < |members[m].rules| && 0 <= s < |members| && 0 <= i ==>
              !Forbidden(members, values, m, r, s, i)
  {
    forall m, r, s | 0 <= m < |members| && 0 <= r < |members[m].rules| && 0 <= s < |members|
      ensures Breaks(members, values, m, r, s) <==> exists i :: 0 <= i && Forbidden(members, values, m, r, s, i)
    {
      BreakMeans(members, values, m, r, s);
    }
    hide Breaks, Forbidden;
    if KeepsRules(members, values) {
      forall m, r, s, i | 0 <= m < |members| && 0 <= r < |members[m].rules| && 0 <= s < |members| && 0 <= i
        ensures !Forbidden(members, values, m, r, s, i)
      {
        assert MemberKeepsRules(members, values, m) && !Breaks(members, values, m, r, s);
      }
    }
  }

  lemma BreakMeans(members: seq<Desc>, values: seq<Number>, m: nat, r: nat, s: nat)
    requires |members| == |values| && m < |members| && r < |members[m].rules| && s < |members|
    requires forall k :: 0 <= k < |values| ==> values[k].Finite?
    ensures Breaks(members, values, m, r, s) <==> exists i :: 0 <= i && Forbidden(members, values, m, r, s, i)
  {
    var rule := members[m].rules[r];
    if Breaks(members, values, m, r, s) {
      var i :| 0 <= i < |rule.values| && Same(Finite(rule.values[i] as real), values[s]);
      assert Forbidden(members, values, m, r, s, i);
    }
  }

  method RuleTriggered(r: Rule, v: Number) returns (t: bool)
    ensures t == exists i :: 0 <= i < |r.values| && Same(Finite(r.values[i] as real), v)
  {
    for i := 0 to |r.values|
      invariant forall j :: 0 <= j < i ==> !Same(Finite(r.values[j] as real), v)
    {
      if Same(Finite(r.values[i] as real), v) {
        return true;
      }
    }
    return false;
  }

  method CheckRule(members: seq<Desc>, values: seq<Number>, m: nat, r: nat) returns (ok: bool)
    requires |members| == |values| && m < |members| && r < |members[m].rules|
    ensures ok == forall s :: 0 <= s < |members| ==> !Breaks(members, values, m, r, s)
  {
    hide Same, Exceeds;
    var rule := members[m].rules[r];
    if rule.inactive {
      return true;
    }
    for s := 0 to |members|
      invariant forall i :: 0 <= i < s ==> !Breaks(members, values, m, r, i)
    {
      if members[s].key == rule.key {
        var triggered := RuleTriggered(rule, values[s]);
        if triggered && Exceeds(values[m], rule.capMax) {
          assert Breaks(members, values, m, r, s);
          return false;
        }
      }
    }
    return true;
  }

  /** check_rules() */
  method CheckRules(members: seq<Desc>, values: seq<Number>) returns (e: Error)
    requires |members| == |values|
    ensures e == if KeepsRules(members, values) then Okay else InvalidValue
  {
    hide Breaks;
    for m := 0 to |members|
      invariant forall i :: 0 <= i < m ==> MemberKeepsRules(members, values, i)
    {
      for r := 0 to |members[m].rules|
        invariant forall j, s :: 0 <= j < r && 0 <= s < |members| ==> !Breaks(members, values, m, j, s)
      {
        var ok := CheckRule(members, values, m, r);
        if !ok {
          assert !MemberKeepsRules(members, values, m);
          return InvalidValue;
        }
      }
    }
    return Okay;
  }

  // ---------------------------------------------------------------- full validation

  ghost predicate AllAcceptable(members: seq<Desc>, values: seq<Number>, rate: int)
    requires |members| == |values|
  {
    forall m :: 0 <= m < |members| ==> Acceptable(members[m], values[m], rate)
  }

  /** A parameter set, the top-level one or a group entry: values first, then rules. */
  ghost function SetError(members: seq<Desc>, values: seq<Number>, rate: int): Error {
    if |values| != |members| || !AllAcceptable(members, values, rate) || !KeepsRules(members, values) then InvalidValue
    else Okay
  }

  // ---------------------------------------------------------------- incremental validation

  predicate Skipped(values: seq<Number>, origin: Option<seq<Number>>, m: nat)
    requires m < |values| && (origin.Some? ==> |origin.value| == |values|)
  {
    origin.Some? && Same(origin.value[m], values[m])
  }

  /** Values that the set shares with its origin are skipped; without a change the rules are too. */
  ghost function ChangedError(members: seq<Desc>, values: seq<Number>, origin: Option<seq<Number>>, rate: int): Error
    requires |members| == |values| && (origin.Some? ==> |origin.value| == |values|)
  {
    if exists m :: 0 <= m < |members| && !Skipped(values, origin, m) && !Acceptable(members[m], values[m], rate)
    then InvalidValue
    else if (exists m :: 0 <= m < |members| && !Skipped(values, origin, m)) && !KeepsRules(members, values)
    then InvalidValue
    else if origin.None? && !KeepsRules(members, values) then InvalidValue
    else Okay
  }

  /** The set that an entry was copied from, if it still has the shape of the entry. */
  function OriginOf(committed: Option<seq<Entry>>, entry: Entry): (o: Option<seq<Number>>)
    ensures o.Some? ==> |o.value| == |entry.values|
  {
    if committed.Some? && 0 <= entry.origin < |committed.value|
    && |committed.value[entry.origin].values| == |entry.values|
    then Some(committed.value[entry.origin].values) else None
  }

  ghost function EntryError(members: seq<Desc>, entry: Entry, committed: Option<seq<Entry>>, rate: int): Error {
    if |entry.values| != |members| then InvalidValue
    else ChangedError(members, entry.values, OriginOf(committed, entry), rate)
  }

  /** The first entry with an error decides. */
  ghost function EntriesError(members: seq<Desc>, entries: seq<Entry>, committed: Option<seq<Entry>>, rate: int,
                              n: nat): Error
    requires n <= |entries|
  {
    if n == 0 then Okay
    else
      var before := EntriesError(members, entries, committed, rate, n - 1);
      if before != Okay then before else EntryError(members, entries[n - 1], committed, rate)
  }

  ghost function GroupError(g: Group, entries: seq<Entry>, committed: Option<seq<Entry>>, rate: int): Error {
    if |entries| < g.minCount || |entries| > g.maxCount then OutOfRange
    else EntriesError(g.members, entries, committed, rate, |entries|)
  }

  predicate SameShape(a: State, b: State) {
    |a.params| == |b.params| && |a.groups| == |b.groups|
  }

  /** A committed state of another shape is not compared with. */
  function BaseOf(committed: Option<State>, state: State): (base: Option<State>)
    ensures base.Some? ==> SameShape(base.value, state)
  {
    if committed.Some? && SameShape(committed.value, state) then committed else None
  }

  function GroupOf(base: Option<State>, g: nat): Option<seq<Entry>>
    requires base.Some? ==> g < |base.value.groups|
  {
    if base.Some? then Some(base.value.groups[g]) else None
  }

  function ParamsOf(base: Option<State>): Option<seq<Number>> {
    if base.Some? then Some(base.value.params) else None
  }

  ghost function GroupsError(schema: Schema, state: State, base: Option<State>, rate: int, n: nat): Error
    requires n <= |schema.groups| == |state.groups| && (base.Some? ==> SameShape(base.value, state))
  {
    if n == 0 then Okay
    else
      var before := GroupsError(schema, state, base, rate, n - 1);
      if before != Okay then before
      else GroupError(schema.groups[n - 1], state.groups[n - 1], GroupOf(base, n - 1), rate)
  }

  /** What validate_state() returns against a committed state, or without one. */
  ghost function StateError(schema: Schema, state: State, committed: Option<State>, rate: int): Error {
    if |state.params| != |schema.params| || |state.groups| != |schema.groups| then InvalidValue
    else
      var base := BaseOf(committed, state);
      var top := ChangedError(schema.params, state.params, ParamsOf(base), rate);
      if top != Okay then top else GroupsError(schema, state, base, rate, |schema.groups|)
  }

  /** Full validation is validation without a committed state. */
  ghost function FullError(schema: Schema, state: State, rate: int): Error {
    StateError(schema, state, None, rate)
  }

  lemma {:induction false} EntriesOkay(members: seq<Desc>, entries: seq<Entry>, committed: Option<seq<Entry>>,
                                       rate: int, n: nat)
    requires n <= |entries|
    ensures EntriesError(members, entries, committed, rate, n) == Okay <==>
            forall i :: 0 <= i < n ==> EntryError(members, entries[i], committed, rate) == Okay
  {
    hide EntryError;
    if n > 0 {
      EntriesOkay(members, entries, committed, rate, n - 1);
    }
  }

  lemma {:induction false} GroupsOkay(schema: Schema, state: State, base: Option<State>, rate: int, n: nat)
    requires n <= |schema.groups| == |state.groups| && (base.Some? ==> SameShape(base.value, state))
    ensures GroupsError(schema, state, base, rate, n) == Okay <==>
            forall g :: 0 <= g < n ==> GroupError(schema.groups[g], state.groups[g], GroupOf(base, g), rate) == Okay
  {
    hide GroupError;
    if n > 0 {
      GroupsOkay(schema, state, base, rate, n - 1);
    }
  }

  /** The loop of validate_state() over one parameter set. */
  method ValidateSet(members: seq<Desc>, values: seq<Number>, origin: Option<seq<Number>>, rate: int) returns (e: Error)
    requires |members| == |values| && (origin.Some? ==> |origin.value| == |values|)
    ensures e == ChangedError(members, values, origin, rate)
  {
    hide Acceptable, KeepsRules, Same;
    var changed := origin.None?;
    for m := 0 to |members|
      invariant forall i :: 0 <= i < m && !Skipped(values, origin, i) ==> Acceptable(members[i], values[i], rate)
      invariant changed <==> origin.None? || exists i :: 0 <= i < m && !Skipped(values, origin, i)
    {
      if !Skipped(values, origin, m) {
        changed := true;
        var error := CheckParam(members[m], values[m], rate);
        if error != Okay {
          return error;
        }
      }
    }
    if changed {
      e := CheckRules(members, values);
    } else {
      e := Okay;
    }
  }

  /** The loop of validate_state() over the entries of one group: the first entry with an error decides. */
  method ValidateEntries(g: Group, entries: seq<Entry>, rate: int, committed: Option<seq<Entry>>) returns (e: Error)
    ensures e == EntriesError(g.members, entries, committed, rate, |entries|)
  {
    hide ChangedError;
    for i := 0 to |entries|
      invariant EntriesError(g.members, entries, committed, rate, i) == Okay
    {
      var values := entries[i].values;
      if |values| != |g.members| {
        FirstError(g.members, entries, committed, rate, i, |entries|);
        return InvalidValue;
      }
      var error := ValidateSet(g.members, values, OriginOf(committed, entries[i]), rate);
      if error != Okay {
        FirstError(g.members, entries, committed, rate, i, |entries|);
        return error;
      }
    }
    return Okay;
  }

  lemma {:induction false} FirstError(members: seq<Desc>, entries: seq<Entry>, committed: Option<seq<Entry>>, rate: int,
                                      i: nat, n: nat)
    requires i < n <= |entries| && EntriesError(members, entries, committed, rate, i) == Okay
    requires EntryError(members, entries[i], committed, rate) != Okay
    ensures EntriesError(members, entries, committed, rate, n) == EntryError(members, entries[i], committed, rate)
  {
    hide EntryError;
    if i < n - 1 {
      FirstError(members, entries, committed, rate, i, n - 1);
    }
  }

  lemma {:induction false} FirstGroupError(schema: Schema, state: State, base: Option<State>, rate: int, g: nat, n: nat)
    requires g < n <= |schema.groups| == |state.groups| && (base.Some? ==> SameShape(base.value, state))
    requires GroupsError(schema, state, base, rate, g) == Okay
    requires GroupError(schema.groups[g], state.groups[g], GroupOf(base, g), rate) != Okay
    ensures GroupsError(schema, state, base, rate, n) ==
            GroupError(schema.groups[g], state.groups[g], GroupOf(base, g), rate)
  {
    hide GroupError;
    if g < n - 1 {
      FirstGroupError(schema, state, base, rate, g, n - 1);
    }
  }

  /**
   * validate_state(), whatever the committed state. Where every committed set that can serve as an origin is valid at
   * the rate, it is full validation, through skipped values, moved entries and sibling rules.
   */
  method ValidateState(schema: Schema, state: State, rate: int, committed: Option<State>) returns (e: Error)
    ensures e == StateError(schema, state, committed, rate)
    ensures committed.None? || OriginsValid(schema, committed.value, rate) ==> e == FullError(schema, state, rate)
  {
    hide ChangedError, EntriesError, OriginsValid;
    if committed.Some? && OriginsValid(schema, committed.value, rate) {
      ValidOriginsAgree(schema, state, committed.value, rate);
    }
    if |state.params| != |schema.params| || |state.groups| != |schema.groups| {
      return InvalidValue;
    }
    var base := BaseOf(committed, state);
    var top := ValidateSet(schema.params, state.params, ParamsOf(base), rate);
    if top != Okay {
      return top;
    }
    for g := 0 to |schema.groups|
      invariant GroupsError(schema, state, base, rate, g) == Okay
    {
      var group, entries := schema.groups[g], state.groups[g];
      if |entries| < group.minCount || |entries| > group.maxCount {
        FirstGroupError(schema, state, base, rate, g, |schema.groups|);
        return OutOfRange;
      }
      var error := ValidateEntries(group, entries, rate, GroupOf(base, g));
      if error != Okay {
        FirstGroupError(schema, state, base, rate, g, |schema.groups|);
        return error;
      }
    }
    return Okay;
  }

  // ---------------------------------------------------------------- when incremental validation is full validation

  /** The sets of a committed state that an edit can be compared with are valid at the rate. */
  ghost predicate OriginsValid(schema: Schema, c: State, rate: int) {
    |c.params| == |schema.params| && |c.groups| == |schema.groups| ==>
      && SetError(schema.params, c.params, rate) == Okay
      && forall g :: 0 <= g < |c.groups| ==> EntriesValid(schema.groups[g].members, c.groups[g], rate)
  }

  /** Entries of another length are never an origin. */
  ghost predicate EntriesValid(members: seq<Desc>, entries: seq<Entry>, rate: int) {
    forall i :: 0 <= i < |entries| && |entries[i].values| == |members| ==>
      SetError(members, entries[i].values, rate) == Okay
  }

  lemma UnchangedSet(members: seq<Desc>, values: seq<Number>, origin: seq<Number>)
    requires |members| == |values| == |origin| && forall m :: 0 <= m < |members| ==> Skipped(values, Some(origin), m)
    ensures values == origin
  {
    forall m | 0 <= m < |values|
      ensures values[m] == origin[m]
    {
      assert Skipped(values, Some(origin), m);
    }
  }

  /** Against a valid origin, or none, the skipped checks would have passed. */
  lemma SkippingIsExact(members: seq<Desc>, values: seq<Number>, origin: Option<seq<Number>>, rate: int)
    requires |members| == |values| && (origin.Some? ==> |origin.value| == |values|)
    requires origin.Some? ==> SetError(members, origin.value, rate) == Okay
    ensures ChangedError(members, values, origin, rate) == SetError(members, values, rate)
  {
    hide Acceptable, KeepsRules;
    if origin.Some? {
      forall m | 0 <= m < |members| && Skipped(values, origin, m)
        ensures Acceptable(members[m], values[m], rate)
      {
        assert Acceptable(members[m], origin.value[m], rate);
      }
      if forall m :: 0 <= m < |members| ==> Skipped(values, origin, m) {
        UnchangedSet(members, values, origin.value);
      }
    }
  }

  lemma EntryIsSet(members: seq<Desc>, entry: Entry, committed: Option<seq<Entry>>, rate: int)
    requires committed.Some? ==> EntriesValid(members, committed.value, rate)
    ensures EntryError(members, entry, committed, rate) == SetError(members, entry.values, rate)
  {
    if |entry.values| == |members| {
      hide ChangedError, SetError;
      SkippingIsExact(members, entry.values, OriginOf(committed, entry), rate);
    }
  }

  lemma {:induction false} ValidEntriesAgree(members: seq<Desc>, entries: seq<Entry>, c: seq<Entry>, rate: int, n: nat)
    requires n <= |entries| && EntriesValid(members, c, rate)
    ensures EntriesError(members, entries, Some(c), rate, n) == EntriesError(members, entries, None, rate, n)
  {
    hide EntryError, EntriesValid;
    if n > 0 {
      ValidEntriesAgree(members, entries, c, rate, n - 1);
      EntryIsSet(members, entries[n - 1], Some(c), rate);
      EntryIsSet(members, entries[n - 1], None, rate);
    }
  }

  lemma {:induction false} ValidGroupsAgree(schema: Schema, state: State, c: State, rate: int, n: nat)
    requires n <= |schema.groups| == |state.groups| && SameShape(c, state)
    requires forall g :: 0 <= g < |c.groups| ==> EntriesValid(schema.groups[g].members, c.groups[g], rate)
    ensures GroupsError(schema, state, Some(c), rate, n) == GroupsError(schema, state, None, rate, n)
  {
    hide EntriesError, EntriesValid;
    if n > 0 {
      ValidGroupsAgree(schema, state, c, rate, n - 1);
      ValidEntriesAgree(schema.groups[n - 1].members, state.groups[n - 1], c.groups[n - 1], rate,
                        |state.groups[n - 1]|);
    }
  }

  /** With valid origins, every edit gets the error of full validation. */
  lemma ValidOriginsAgree(schema: Schema, state: State, c: State, rate: int)
    requires OriginsValid(schema, c, rate)
    ensures StateError(schema, state, Some(c), rate) == FullError(schema, state, rate)
  {
    hide ChangedError, SetError, EntriesValid, GroupsError;
    if |state.params| == |schema.params| && |state.groups| == |schema.groups| && SameShape(c, state) {
      SkippingIsExact(schema.params, state.params, Some(c.params), rate);
      SkippingIsExact(schema.params, state.params, None, rate);
      ValidGroupsAgree(schema, state, c, rate, |schema.groups|);
    }
  }

  // ---------------------------------------------------------------- why the origins must be valid

  ghost predicate Numbers(values: seq<Number>) {
    forall m :: 0 <= m < |values| ==> !values[m].NotANumber?
  }

  /** An unchanged set passes, whatever its values: this is what allows edits after a rate change. */
  lemma UnchangedPasses(members: seq<Desc>, values: seq<Number>, rate: int)
    requires |members| == |values| && Numbers(values)
    ensures ChangedError(members, values, Some(values), rate) == Okay
  {
    assert forall m :: 0 <= m < |members| ==> Skipped(values, Some(values), m);
  }

  /**
   * What an edit is judged by: the values that it changes, and the rules if it changes any.  Values that stay may be
   * out of bounds.
   */
  lemma ChangesJudged(members: seq<Desc>, values: seq<Number>, origin: seq<Number>, rate: int)
    requires |members| == |values| == |origin| && Numbers(origin)
    ensures ChangedError(members, values, Some(origin), rate) == Okay <==>
            && (forall m :: 0 <= m < |members| && values[m] != origin[m] ==> Acceptable(members[m], values[m], rate))
            && (values == origin || KeepsRules(members, values))
  {
    hide Acceptable, KeepsRules;
    assert forall m :: 0 <= m < |members| ==> (Skipped(values, Some(origin), m) <==> values[m] == origin[m]);
    if forall m :: 0 <= m < |members| ==> Skipped(values, Some(origin), m) {
      UnchangedSet(members, values, origin);
    }
  }

  /**
   * One acceptable value can be set although another one is no longer acceptable, as after a change of rate; full
   * validation would refuse the set.
   */
  lemma EditPasses(members: seq<Desc>, origin: seq<Number>, m: nat, v: Number, stale: nat, rate: int)
    requires |members| == |origin| && Numbers(origin) && m < |members| && stale < |members| && stale != m
    requires Acceptable(members[m], v, rate) && KeepsRules(members, origin[m := v])
    requires !Acceptable(members[stale], origin[stale], rate)
    ensures ChangedError(members, origin[m := v], Some(origin), rate) == Okay
    ensures SetError(members, origin[m := v], rate) == InvalidValue
  {
    hide Acceptable, KeepsRules, ChangedError;
    ChangesJudged(members, origin[m := v], origin, rate);
    assert origin[m := v][stale] == origin[stale];
  }

  ghost predicate SetsAgree(members: seq<Desc>, origin: seq<Number>, rate: int)
    requires |members| == |origin|
  {
    forall values: seq<Number> :: |values| == |origin| ==>
      ChangedError(members, values, Some(origin), rate) == SetError(members, values, rate)
  }

  /** Every new set gets the error of full validation exactly if its origin is valid. */
  lemma AgreeOnlyIfValid(members: seq<Desc>, origin: seq<Number>, rate: int)
    requires |members| == |origin| && Numbers(origin)
    ensures SetsAgree(members, origin, rate) <==> SetError(members, origin, rate) == Okay
  {
    hide ChangedError, SetError;
    UnchangedPasses(members, origin, rate);
    if SetError(members, origin, rate) == Okay {
      forall values: seq<Number> | |values| == |origin|
        ensures ChangedError(members, values, Some(origin), rate) == SetError(members, values, rate)
      {
        SkippingIsExact(members, values, Some(origin), rate);
      }
    }
  }

  /** A state of the schema's shape and counts; its values may be out of bounds or break rules. */
  ghost predicate Shaped(schema: Schema, c: State) {
    && |c.params| == |schema.params| && |c.groups| == |schema.groups| && Numbers(c.params)
    && forall g :: 0 <= g < |c.groups| ==> ShapedGroup(schema.groups[g], c.groups[g])
  }

  ghost predicate ShapedGroup(g: Group, entries: seq<Entry>) {
    && g.minCount <= |entries| <= g.maxCount
    && forall i :: 0 <= i < |entries| ==> |entries[i].values| == |g.members| && Numbers(entries[i].values)
  }

  /** The edit that changes nothing: every entry is a copy of the committed one at its place. */
  ghost function Copied(entries: seq<Entry>): (r: seq<Entry>)
    ensures |r| == |entries| && forall i :: 0 <= i < |r| ==> r[i] == Entry(entries[i].values, i)
  {
    seq(|entries|, i requires 0 <= i < |entries| => Entry(entries[i].values, i))
  }

  ghost function Unedited(c: State): (s: State)
    ensures SameShape(s, c) && s.params == c.params
    ensures forall g :: 0 <= g < |c.groups| ==> s.groups[g] == Copied(c.groups[g])
  {
    State(c.params, seq(|c.groups|, g requires 0 <= g < |c.groups| => Copied(c.groups[g])))
  }

  lemma CopiedPasses(g: Group, entries: seq<Entry>, rate: int)
    requires ShapedGroup(g, entries)
    ensures GroupError(g, Copied(entries), Some(entries), rate) == Okay
  {
    hide ChangedError;
    var copy := Copied(entries);
    forall i | 0 <= i < |copy|
      ensures EntryError(g.members, copy[i], Some(entries), rate) == Okay
    {
      UnchangedPasses(g.members, entries[i].values, rate);
    }
    EntriesOkay(g.members, copy, Some(entries), rate, |copy|);
  }

  /** A committed state passes against itself, whatever its values. */
  lemma UneditedPasses(schema: Schema, c: State, rate: int)
    requires Shaped(schema, c)
    ensures StateError(schema, Unedited(c), Some(c), rate) == Okay
  {
    hide ChangedError, GroupError, ShapedGroup;
    UnchangedPasses(schema.params, c.params, rate);
    forall g | 0 <= g < |c.groups|
      ensures GroupError(schema.groups[g], Unedited(c).groups[g], GroupOf(Some(c), g), rate) == Okay
    {
      CopiedPasses(schema.groups[g], c.groups[g], rate);
    }
    GroupsOkay(schema, Unedited(c), Some(c), rate, |schema.groups|);
  }

  /** A state passes full validation exactly if its counts are right and all of its sets are valid. */
  lemma FullMeans(schema: Schema, c: State, rate: int)
    requires Shaped(schema, c)
    ensures FullError(schema, c, rate) == Okay <==> OriginsValid(schema, c, rate)
  {
    hide ChangedError, SetError, GroupError, ShapedGroup, EntriesValid;
    SkippingIsExact(schema.params, c.params, None, rate);
    forall g | 0 <= g < |c.groups|
      ensures GroupError(schema.groups[g], c.groups[g], None, rate) == Okay <==>
              EntriesValid(schema.groups[g].members, c.groups[g], rate)
    {
      GroupMeans(schema.groups[g], c.groups[g], rate);
    }
    GroupsOkay(schema, c, None, rate, |schema.groups|);
  }

  lemma GroupMeans(g: Group, entries: seq<Entry>, rate: int)
    requires ShapedGroup(g, entries)
    ensures GroupError(g, entries, None, rate) == Okay <==> EntriesValid(g.members, entries, rate)
  {
    hide SetError, EntryError;
    EntriesOkay(g.members, entries, None, rate, |entries|);
    forall i | 0 <= i < |entries|
      ensures EntryError(g.members, entries[i], None, rate) == SetError(g.members, entries[i].values, rate)
    {
      EntryIsSet(g.members, entries[i], None, rate);
    }
  }

  /** Without a committed state, the places that entries were copied from do not matter. */
  lemma CopiesValid(schema: Schema, c: State, rate: int)
    requires Shaped(schema, c)
    ensures Shaped(schema, Unedited(c))
    ensures OriginsValid(schema, Unedited(c), rate) ==> OriginsValid(schema, c, rate)
  {
    hide SetError;
    var s := Unedited(c);
    forall g | 0 <= g < |c.groups|
      ensures ShapedGroup(schema.groups[g], s.groups[g])
      ensures EntriesValid(schema.groups[g].members, s.groups[g], rate) ==>
                EntriesValid(schema.groups[g].members, c.groups[g], rate)
    {
      assert ShapedGroup(schema.groups[g], c.groups[g]);
      assert forall i :: 0 <= i < |c.groups[g]| ==> s.groups[g][i].values == c.groups[g][i].values;
    }
  }

  ghost predicate EveryEditAgrees(schema: Schema, c: State, rate: int) {
    forall state :: StateError(schema, state, Some(c), rate) == FullError(schema, state, rate)
  }

  /**
   * Incremental validation gives every edit of a committed state the error of full validation exactly if that state is
   * itself valid at the rate.
   */
  lemma AgreesExactlyIfValid(schema: Schema, c: State, rate: int)
    requires Shaped(schema, c)
    ensures EveryEditAgrees(schema, c, rate) <==> FullError(schema, c, rate) == Okay
  {
    hide StateError, FullError, Shaped, OriginsValid;
    FullMeans(schema, c, rate);
    if EveryEditAgrees(schema, c, rate) {
      UneditedPasses(schema, c, rate);
      CopiesValid(schema, c, rate);
      FullMeans(schema, Unedited(c), rate);
    }
    if OriginsValid(schema, c, rate) {
      forall state
        ensures StateError(schema, state, Some(c), rate) == FullError(schema, state, rate)
      {
        ValidOriginsAgree(schema, state, c, rate);
      }
    }
  }
}
