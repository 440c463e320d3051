/**
 The bulk variant generator: every combination of the selected options becomes one variant,
 unless the product already has it. Serialized signatures are the maps they serialize.
 */
module Variants {
  import opened Outcomes
  import Text

  /** An attribute option, chosen for its definition. */
  datatype Choice = Choice(option: nat, definition: nat, name: string)

  datatype OptionSet = OptionSet(definition: nat, options: seq<Choice>)

  /** An attribute value of a variant. */
  datatype Row = Row(definition: nat, name: string, defining: bool)

  datatype Variant = Variant(sku: string, rows: seq<Row>)

  /** Definition id to label, of the variant-defining rows. */
  type Signature = map<nat, string>

  // Combinations

  function Each(combination: seq<Choice>, options: seq<Choice>): seq<seq<Choice>> {
    if options == [] then [] else [combination + [options[0]]] + Each(combination, options[1..])
  }

  function Extended(combinations: seq<seq<Choice>>, options: seq<Choice>): seq<seq<Choice>> {
    if combinations == [] then [] else Each(combinations[0], options) + Extended(combinations[1..], options)
  }

  lemma TakeTail<T>(s: seq<T>, n: nat)
    requires 0 < n <= |s|
    ensures s[..n][0] == s[0] && s[..n][1..] == s[1..][..n - 1]
  {
  }

  lemma {:induction false} EachSnoc(combination: seq<Choice>, options: seq<Choice>, k: nat)
    requires k < |options|
    ensures Each(combination, options[..k + 1]) == Each(combination, options[..k]) + [combination + [options[k]]]
  {
    if k > 0 {
      EachSnoc(combination, options[1..], k - 1);
      TakeTail(options, k + 1);
      TakeTail(options, k);
    }
  }

  lemma {:induction false} ExtendedSnoc(combinations: seq<seq<Choice>>, options: seq<Choice>, k: nat)
    requires k < |combinations|
    ensures Extended(combinations[..k + 1], options) == Extended(combinations[..k], options) + Each(combinations[k], options)
  {
    if k > 0 {
      ExtendedSnoc(combinations[1..], options, k - 1);
      TakeTail(combinations, k + 1);
      TakeTail(combinations, k);
    } else {
      assert combinations[..1][1..] == [] && Extended([], options) == [];
    }
  }

  function Cartesian(sets: seq<OptionSet>): seq<seq<Choice>> {
    if sets == [] then [[]] else Extended(Cartesian(sets[..|sets| - 1]), sets[|sets| - 1].options)
  }

  predicate Unique<T(==)>(s: seq<T>) {
    forall i, j :: 0 <= i < j < |s| ==> s[i] != s[j]
  }

  /** One option of every set, in order. */
  predicate Picks(t: seq<Choice>, sets: seq<OptionSet>) {
    |t| == |sets| && forall i :: 0 <= i < |t| ==> t[i] in sets[i].options
  }

  function Product(sets: seq<OptionSet>): nat {
    if sets == [] then 1 else Product(sets[..|sets| - 1]) * |sets[|sets| - 1].options|
  }

  lemma {:induction false} EachHas(combination: seq<Choice>, options: seq<Choice>, t: seq<Choice>)
    ensures |Each(combination, options)| == |options|
    ensures t in Each(combination, options)
        <==> t != [] && t[..|t| - 1] == combination && t[|t| - 1] in options
  {
    if options != [] {
      EachHas(combination, options[1..], t);
      assert t == combination + [options[0]] <==> t != [] && t[..|t| - 1] == combination && t[|t| - 1] == options[0];
    }
  }

  lemma {:induction false} ExtendedHas(combinations: seq<seq<Choice>>, options: seq<Choice>, t: seq<Choice>)
    ensures |Extended(combinations, options)| == |combinations| * |options|
    ensures t in Extended(combinations, options)
        <==> t != [] && t[..|t| - 1] in combinations && t[|t| - 1] in options
  {
    if combinations != [] {
      EachHas(combinations[0], options, t);
      ExtendedHas(combinations[1..], options, t);
      assert (1 + |combinations[1..]|) * |options| == |options| + |combinations[1..]| * |options|;
    }
  }

  lemma {:induction false} CartesianSize(sets: seq<OptionSet>)
    ensures |Cartesian(sets)| == Product(sets)
  {
    if sets != [] {
      var n := |sets| - 1;
      ExtendedHas(Cartesian(sets[..n]), sets[n].options, []);
      CartesianSize(sets[..n]);
    }
  }

  lemma PicksLast(t: seq<Choice>, sets: seq<OptionSet>)
    requires t != [] && sets != []
    ensures Picks(t, sets) <==> Picks(t[..|t| - 1], sets[..|sets| - 1]) && t[|t| - 1] in sets[|sets| - 1].options
  {
  }

  /** The expansion lists exactly the choices of one option per set; there are as many as the sizes multiply to. */
  lemma {:induction false} CartesianHas(sets: seq<OptionSet>, t: seq<Choice>)
    ensures |Cartesian(sets)| == Product(sets)
    ensures t in Cartesian(sets) <==> Picks(t, sets)
  {
    CartesianSize(sets);
    if sets != [] {
      var n := |sets| - 1;
      ExtendedHas(Cartesian(sets[..n]), sets[n].options, t);
      if t != [] {
        CartesianHas(sets[..n], t[..|t| - 1]);
        PicksLast(t, sets);
      }
    }
  }

  lemma {:induction false} EachUnique(combination: seq<Choice>, options: seq<Choice>)
    requires Unique(options)
    ensures Unique(Each(combination, options))
  {
    if options != [] {
      EachUnique(combination, options[1..]);
      EachHas(combination, options[1..], combination + [options[0]]);
    }
  }

  lemma {:induction false} ExtendedUnique(combinations: seq<seq<Choice>>, options: seq<Choice>)
    requires Unique(combinations) && Unique(options)
    ensures Unique(Extended(combinations, options))
  {
    if combinations != [] {
      var each, rest := Each(combinations[0], options), Extended(combinations[1..], options);
      EachUnique(combinations[0], options);
      ExtendedUnique(combinations[1..], options);
      forall i, j | 0 <= i < |each| && 0 <= j < |rest| ensures each[i] != rest[j] {
        EachHas(combinations[0], options, each[i]);
        ExtendedHas(combinations[1..], options, rest[j]);
        assert each[i] in each && rest[j] in rest;
      }
    }
  }

  /** And lists each of them once. */
  lemma {:induction false} CartesianUnique(sets: seq<OptionSet>)
    requires forall i :: 0 <= i < |sets| ==> Unique(sets[i].options)
    ensures Unique(Cartesian(sets))
  {
    if sets != [] {
      CartesianUnique(sets[..|sets| - 1]);
      ExtendedUnique(Cartesian(sets[..|sets| - 1]), sets[|sets| - 1].options);
    }
  }

  // Signatures

  function SignatureOf(t: seq<Choice>): Signature {
    if t == [] then map[] else SignatureOf(t[..|t| - 1])[t[|t| - 1].definition := t[|t| - 1].name]
  }

  function MapByDefinition(rows: seq<Row>): Signature {
    if rows == [] then map[]
    else
      var last := rows[|rows| - 1];
      var before := MapByDefinition(rows[..|rows| - 1]);
      if last.defining then before[last.definition := last.name] else before
  }

  /** Some variant other than the one at hand carries the signature; a variant without one carries none. */
  predicate Carried(variants: seq<Variant>, s: Signature) {
    s != map[] && exists i :: 0 <= i < |variants| && MapByDefinition(variants[i].rows) == s
  }

  predicate Duplicated(rows: seq<Row>) {
    exists i, j :: 0 <= i < j < |rows| && rows[i].defining && rows[j].defining && rows[i].definition == rows[j].definition
  }

  /** What the observer rejects when the last of the rows is saved. */
  predicate Rejected(siblings: seq<Variant>, rows: seq<Row>) {
    MapByDefinition(rows) != map[] && (Duplicated(rows) || Carried(siblings, MapByDefinition(rows)))
  }

  function RowsOf(t: seq<Choice>): (rows: seq<Row>)
    ensures |rows| == |t|
  {
    seq(|t|, i requires 0 <= i < |t| => Row(t[i].definition, t[i].name, true))
  }

  /** The generator and the signature service agree on what it creates. */
  lemma {:induction false} SignaturesAgree(t: seq<Choice>)
    ensures MapByDefinition(RowsOf(t)) == SignatureOf(t)
  {
    if t != [] {
      assert RowsOf(t)[..|t| - 1] == RowsOf(t[..|t| - 1]);
      SignaturesAgree(t[..|t| - 1]);
    }
  }

  predicate Ascending(definitions: seq<nat>) {
    forall i, j :: 0 <= i < j < |definitions| ==> definitions[i] < definitions[j]
  }

  predicate Fits(t: seq<Choice>, definitions: seq<nat>) {
    |t| == |definitions| && forall i :: 0 <= i < |t| ==> t[i].definition == definitions[i]
  }

  lemma {:induction false} SignatureAt(t: seq<Choice>, definitions: seq<nat>, d: nat)
    requires Ascending(definitions) && Fits(t, definitions)
    ensures d in SignatureOf(t) <==> d in definitions
    ensures forall i :: 0 <= i < |t| ==> definitions[i] in SignatureOf(t) && SignatureOf(t)[definitions[i]] == t[i].name
  {
    if t != [] {
      var n := |t| - 1;
      SignatureAt(t[..n], definitions[..n], d);
      assert SignatureOf(t) == SignatureOf(t[..n])[definitions[n] := t[n].name];
      assert definitions == definitions[..n] + [definitions[n]];
      forall i | 0 <= i < n ensures definitions[i] in SignatureOf(t) && SignatureOf(t)[definitions[i]] == t[i].name {
        assert definitions[..n][i] == definitions[i] && t[..n][i] == t[i];
        assert definitions[i] != definitions[n];
      }
    }
  }

  /** Combinations with the same signature have the same labels, hence the same partial signatures. */
  lemma SameSignatureSamePrefix(t: seq<Choice>, u: seq<Choice>, definitions: seq<nat>, m: nat)
    requires Ascending(definitions) && Fits(t, definitions) && Fits(u, definitions) && m <= |t|
    requires SignatureOf(t) == SignatureOf(u)
    ensures SignatureOf(t[..m]) == SignatureOf(u[..m])
  {
    SignatureAt(t, definitions, 0);
    SignatureAt(u, definitions, 0);
    SameLabels(t[..m], u[..m]);
  }

  lemma {:induction false} SameLabels(t: seq<Choice>, u: seq<Choice>)
    requires |t| == |u|
    requires forall i :: 0 <= i < |t| ==> t[i].definition == u[i].definition && t[i].name == u[i].name
    ensures SignatureOf(t) == SignatureOf(u)
  {
    if t != [] {
      SameLabels(t[..|t| - 1], u[..|u| - 1]);
    }
  }

  /** A partial combination is never mistaken for a whole one. */
  lemma PartialDiffers(t: seq<Choice>, u: seq<Choice>, definitions: seq<nat>, m: nat)
    requires Ascending(definitions) && Fits(t, definitions) && Fits(u, definitions) && m < |t|
    ensures SignatureOf(t[..m]) != SignatureOf(u)
  {
    var last := definitions[|definitions| - 1];
    SignatureAt(u, definitions, last);
    assert Ascending(definitions[..m]) && Fits(t[..m], definitions[..m]);
    SignatureAt(t[..m], definitions[..m], last);
  }

  // SKUs

  function Candidate(base: string, attempt: nat): string
    requires attempt >= 1
  {
    if attempt == 1 then base else base + "-" + Text.Decimal(attempt)
  }

  lemma CandidatesDiffer(base: string, a: nat, b: nat)
    requires a >= 1 && b >= 1 && Candidate(base, a) == Candidate(base, b)
    ensures a == b
  {
    if a != 1 && b != 1 {
      assert Candidate(base, a)[|base| + 1..] == Text.Decimal(a);
      assert Candidate(base, b)[|base| + 1..] == Text.Decimal(b);
      Text.DecimalInjective(a, b);
    }
  }

  function Tried(base: string, attempt: nat): set<string> {
    set i | 1 <= i < attempt :: Candidate(base, i)
  }

  lemma OneMoreTried(skus: set<string>, base: string, attempt: nat)
    requires attempt >= 1 && Candidate(base, attempt) in skus
    ensures |skus - Tried(base, attempt + 1)| < |skus - Tried(base, attempt)|
  {
    var c := Candidate(base, attempt);
    if c in Tried(base, attempt) {
      var i :| 1 <= i < attempt && Candidate(base, i) == c;
      CandidatesDiffer(base, i, attempt);
      assert false;
    }
    var left, rest := skus - Tried(base, attempt), skus - Tried(base, attempt + 1);
    assert c in left && c !in rest && rest <= left;
    assert left == rest + (left - rest) && c in left - rest;
  }

  /** The first candidate from `attempt` on that the tenant does not own. */
  function FreshSku(skus: set<string>, base: string, attempt: nat): (sku: string)
    requires attempt >= 1
    ensures sku !in skus
    decreases |skus - Tried(base, attempt)|
  {
    if Candidate(base, attempt) !in skus then Candidate(base, attempt)
    else
      OneMoreTried(skus, base, attempt);
      FreshSku(skus, base, attempt + 1)
  }

  /** The first candidate that is free, counting from one: the base itself, then base-2, base-3 and so on. */
  lemma FirstFreeSku(skus: set<string>, base: string) returns (n: nat)
    ensures n >= 1 && FreshSku(skus, base, 1) == Candidate(base, n) && Candidate(base, n) !in skus
    ensures forall i :: 1 <= i < n ==> Candidate(base, i) in skus
    ensures Candidate(base, n) == if n == 1 then base else base + "-" + Text.Decimal(n)
  {
    n := FirstFreeFrom(skus, base, 1, |skus - Tried(base, 1)|);
  }

  predicate AllTaken(skus: set<string>, base: string, from: nat, to: nat)
    requires from >= 1
  {
    forall i :: from <= i < to ==> Candidate(base, i) in skus
  }

  lemma OneMoreTaken(skus: set<string>, base: string, from: nat, to: nat)
    requires from >= 1 && Candidate(base, from) in skus && AllTaken(skus, base, from + 1, to)
    ensures AllTaken(skus, base, from, to)
  {
    forall i | from <= i < to ensures Candidate(base, i) in skus {
      assert i == from || from + 1 <= i;
    }
  }

  lemma FreshSkuMoves(skus: set<string>, base: string, attempt: nat)
    requires attempt >= 1
    ensures FreshSku(skus, base, attempt)
         == if Candidate(base, attempt) !in skus then Candidate(base, attempt) else FreshSku(skus, base, attempt + 1)
  {
  }

  lemma FewerLeft(skus: set<string>, base: string, attempt: nat, left: nat)
    requires attempt >= 1 && Candidate(base, attempt) in skus && |skus - Tried(base, attempt)| <= left
    ensures left > 0 && |skus - Tried(base, attempt + 1)| <= left - 1
  {
    OneMoreTried(skus, base, attempt);
  }

  lemma {:induction false} FirstFreeFrom(skus: set<string>, base: string, attempt: nat, left: nat) returns (n: nat)
    requires attempt >= 1 && |skus - Tried(base, attempt)| <= left
    ensures n >= attempt && FreshSku(skus, base, attempt) == Candidate(base, n) && AllTaken(skus, base, attempt, n)
    decreases left
  {
    FreshSkuMoves(skus, base, attempt);
    if Candidate(base, attempt) !in skus {
      n := attempt;
    } else {
      FewerLeft(skus, base, attempt, left);
      n := FirstFreeFrom(skus, base, attempt + 1, left - 1);
      OneMoreTaken(skus, base, attempt, n);
    }
  }

  // Generating

  /** Saves the choices from position `j` on as rows of the last variant, until one is rejected. */
  function AddRows(variants: seq<Variant>, t: seq<Choice>, j: nat): (seq<Variant>, bool)
    requires variants != [] && j <= |t|
    decreases |t| - j
  {
    if j == |t| then (variants, true)
    else
      var last := |variants| - 1;
      var rows := variants[last].rows + [Row(t[j].definition, t[j].name, true)];
      if Rejected(variants[..last], rows) then (variants, false)
      else AddRows(variants[last := variants[last].(rows := rows)], t, j + 1)
  }

  datatype State = State(
    variants: seq<Variant>, skus: set<string>, known: seq<Signature>, created: nat, skipped: nat)

  /** One combination; a rejected one leaves behind the rows saved so far. */
  function GenerateOne(st: State, t: seq<Choice>, base: string): State {
    var signature := SignatureOf(t);
    if signature in st.known then st.(skipped := st.skipped + 1)
    else
      var sku := FreshSku(st.skus, base, 1);
      var (variants, saved) := AddRows(st.variants + [Variant(sku, [])], t, 0);
      var st1 := st.(variants := variants, skus := st.skus + {sku});
      if saved then st1.(known := st.known + [signature], created := st.created + 1)
      else st1.(skipped := st.skipped + 1)
  }

  /** `bases` are the SKUs before their suffix, one per combination. */
  function GenerateAll(st: State, combinations: seq<seq<Choice>>, bases: seq<string>): State
    requires |bases| == |combinations|
    decreases |combinations|
  {
    if combinations == [] then st
    else GenerateAll(GenerateOne(st, combinations[0], bases[0]), combinations[1..], bases[1..])
  }

  function ExistingSignatures(variants: seq<Variant>): seq<Signature> {
    if variants == [] then []
    else
      var s := MapByDefinition(variants[|variants| - 1].rows);
      ExistingSignatures(variants[..|variants| - 1]) + (if s == map[] then [] else [s])
  }

  function Started(variants: seq<Variant>, skus: set<string>): State {
    State(variants, skus, ExistingSignatures(variants), 0, 0)
  }

  /** The sets are those with at least one valid option, ordered by definition. */
  function Generate(variants: seq<Variant>, skus: set<string>, sets: seq<OptionSet>, price: int, max: nat,
                    bases: seq<string>): Result<State>
    requires |bases| == |Cartesian(sets)|
  {
    if price <= 0 || sets == [] then Failure(InvalidArgument)
    else if |Cartesian(sets)| > max then Failure(InvalidArgument)
    else Success(GenerateAll(Started(variants, skus), Cartesian(sets), bases))
  }

  lemma {:induction false} ExistingAreCarried(variants: seq<Variant>, s: Signature)
    ensures s in ExistingSignatures(variants) <==> Carried(variants, s)
  {
    if variants != [] {
      var n := |variants| - 1;
      ExistingAreCarried(variants[..n], s);
      CarriedSnoc(variants[..n], variants[n], s);
      assert variants[..n] + [variants[n]] == variants;
    }
  }

  // What one combination does

  /** Saving the next row of a combination: no definition repeats, so only a sibling can stop it. */
  lemma NextRow(siblings: seq<Variant>, sku: string, t: seq<Choice>, definitions: seq<nat>, j: nat)
    requires Ascending(definitions) && Fits(t, definitions) && j < |t|
    ensures var variants := siblings + [Variant(sku, RowsOf(t[..j]))];
            AddRows(variants, t, j)
              == if Carried(siblings, SignatureOf(t[..j + 1])) then (variants, false)
                 else AddRows(siblings + [Variant(sku, RowsOf(t[..j + 1]))], t, j + 1)
  {
    var variants := siblings + [Variant(sku, RowsOf(t[..j]))];
    var rows := RowsOf(t[..j]) + [Row(t[j].definition, t[j].name, true)];
    assert rows == RowsOf(t[..j + 1]);
    SignaturesAgree(t[..j + 1]);
    assert t[..j + 1][..j] == t[..j] && t[j].definition in SignatureOf(t[..j + 1]);
    assert !Duplicated(rows);
    assert variants[..|siblings|] == siblings;
    assert variants[|siblings| := Variant(sku, rows)] == siblings + [Variant(sku, rows)];
  }

  /** How far the rows of a combination get: to the first part of it that a sibling carries. */
  function Reach(siblings: seq<Variant>, t: seq<Choice>, j: nat): (m: nat)
    requires j <= |t|
    ensures j <= m <= |t| && (m < |t| ==> Carried(siblings, SignatureOf(t[..m + 1])))
    ensures forall k :: j < k <= m ==> !Carried(siblings, SignatureOf(t[..k]))
    decreases |t| - j
  {
    if j == |t| || Carried(siblings, SignatureOf(t[..j + 1])) then j else Reach(siblings, t, j + 1)
  }

  lemma {:induction false} AddRowsReaches(siblings: seq<Variant>, sku: string, t: seq<Choice>, definitions: seq<nat>, j: nat)
    requires Ascending(definitions) && Fits(t, definitions) && j <= |t|
    ensures var m := Reach(siblings, t, j);
            AddRows(siblings + [Variant(sku, RowsOf(t[..j]))], t, j)
              == (siblings + [Variant(sku, RowsOf(t[..m]))], m == |t|)
    decreases |t| - j
  {
    if j < |t| {
      NextRow(siblings, sku, t, definitions, j);
      if !Carried(siblings, SignatureOf(t[..j + 1])) {
        AddRowsReaches(siblings, sku, t, definitions, j + 1);
      }
    }
  }

  /** The combination exists, or a variant carrying a proper part of it stands in its way. */
  predicate Settled(variants: seq<Variant>, t: seq<Choice>) {
    Carried(variants, SignatureOf(t)) || Blocked(variants, t)
  }

  predicate Blocked(variants: seq<Variant>, t: seq<Choice>) {
    exists m :: 0 < m < |t| && Carried(variants, SignatureOf(t[..m]))
  }

  /** Every known signature is carried and every carried one of full length is known. */
  ghost predicate Tracked(st: State, definitions: seq<nat>) {
    && (forall s :: s in st.known ==> Carried(st.variants, s))
    && (forall t :: Fits(t, definitions) && t != [] && Carried(st.variants, SignatureOf(t)) ==> SignatureOf(t) in st.known)
  }

  /** No two variants carry the same signature. */
  predicate Apart(variants: seq<Variant>) {
    forall i, j :: 0 <= i < j < |variants| && MapByDefinition(variants[i].rows) != map[] ==>
      MapByDefinition(variants[i].rows) != MapByDefinition(variants[j].rows)
  }

  lemma CarriedSnoc(variants: seq<Variant>, v: Variant, s: Signature)
    ensures Carried(variants + [v], s) <==> Carried(variants, s) || (s != map[] && MapByDefinition(v.rows) == s)
  {
    var grown := variants + [v];
    if Carried(variants, s) {
      var i :| 0 <= i < |variants| && MapByDefinition(variants[i].rows) == s;
      assert grown[i] == variants[i];
    }
    assert grown[|variants|] == v;
  }

  /** What carrying on with one more combination did to the variants. */
  ghost predicate Grown(variants: seq<Variant>, variants1: seq<Variant>, t: seq<Choice>) {
    || (variants1 == variants && Carried(variants, SignatureOf(t)))
    || (exists m, sku ::
          && 0 <= m <= |t| && variants1 == variants + [Variant(sku, RowsOf(t[..m]))]
          && !Carried(variants, SignatureOf(t[..m])) && !Carried(variants, SignatureOf(t))
          && (m < |t| <==> Blocked(variants, t)))
  }

  lemma OneGrows(st: State, t: seq<Choice>, base: string, definitions: seq<nat>)
    requires Ascending(definitions) && Fits(t, definitions) && t != [] && Tracked(st, definitions)
    ensures var st1 := GenerateOne(st, t, base);
            && Grown(st.variants, st1.variants, t)
            && st1.created == st.created + (if Settled(st.variants, t) then 0 else 1)
            && st1.created + st1.skipped == st.created + st.skipped + 1
            && st1.known == st.known + (if Settled(st.variants, t) then [] else [SignatureOf(t)])
  {
    assert t[..|t|] == t;
    if SignatureOf(t) !in st.known {
      var sku := FreshSku(st.skus, base, 1);
      assert RowsOf(t[..0]) == [];
      var m := Reach(st.variants, t, 0);
      AddRowsReaches(st.variants, sku, t, definitions, 0);
      assert SignatureOf(t[..0]) == map[];
      var st1 := GenerateOne(st, t, base);
      assert st1.variants == st.variants + [Variant(sku, RowsOf(t[..m]))];
      assert m < |t| ==> m + 1 < |t| && Blocked(st.variants, t);
      assert m == |t| ==> !Blocked(st.variants, t);
    }
  }

  /** A request is refused exactly without a price, without options, or when there are too many combinations. */
  lemma GenerateSucceedsIff(variants: seq<Variant>, skus: set<string>, sets: seq<OptionSet>, price: int, max: nat,
                            bases: seq<string>)
    requires |bases| == |Cartesian(sets)|
    ensures var r := Generate(variants, skus, sets, price, max, bases);
            && (r.Success? <==> price > 0 && sets != [] && Product(sets) <= max)
            && (r.Success? ==> r.value == GenerateAll(Started(variants, skus), Cartesian(sets), bases))
  {
    CartesianSize(sets);
  }

  /** A known combination is only counted as skipped. */
  lemma KnownIsSkipped(st: State, t: seq<Choice>, base: string)
    requires SignatureOf(t) in st.known
    ensures GenerateOne(st, t, base) == State(st.variants, st.skus, st.known, st.created, st.skipped + 1)
  {
  }

  /**
   Any other combination gets a variant with a fresh SKU in last place: with all its values, and
   counted as created, when no variant carries a part of it; otherwise with the values before the
   first such part, and counted as skipped.
   */
  lemma OneLeaves(st: State, t: seq<Choice>, base: string, definitions: seq<nat>) returns (m: nat)
    requires Ascending(definitions) && Fits(t, definitions) && SignatureOf(t) !in st.known
    ensures m <= |t| && (forall k :: 0 < k <= m ==> !Carried(st.variants, SignatureOf(t[..k])))
    ensures m < |t| ==> Carried(st.variants, SignatureOf(t[..m + 1]))
    ensures var sku := FreshSku(st.skus, base, 1); var variants := st.variants + [Variant(sku, RowsOf(t[..m]))];
            GenerateOne(st, t, base) ==
              if m == |t|
              then State(variants, st.skus + {sku}, st.known + [SignatureOf(t)], st.created + 1, st.skipped)
              else State(variants, st.skus + {sku}, st.known, st.created, st.skipped + 1)
  {
    m := Reach(st.variants, t, 0);
    NewVariant(st.variants, FreshSku(st.skus, base, 1), t, definitions);
  }

  /** The rows that a new variant of a combination ends up with. */
  lemma NewVariant(siblings: seq<Variant>, sku: string, t: seq<Choice>, definitions: seq<nat>)
    requires Ascending(definitions) && Fits(t, definitions)
    ensures var m := Reach(siblings, t, 0);
            AddRows(siblings + [Variant(sku, [])], t, 0) == (siblings + [Variant(sku, RowsOf(t[..m]))], m == |t|)
  {
    assert RowsOf(t[..0]) == [];
    AddRowsReaches(siblings, sku, t, definitions, 0);
  }

  lemma GrownCarries(variants: seq<Variant>, variants1: seq<Variant>, t: seq<Choice>, s: Signature)
    requires Grown(variants, variants1, t)
    ensures Carried(variants, s) ==> Carried(variants1, s)
    ensures !Blocked(variants, t) ==> (Carried(variants1, s) ==> Carried(variants, s) || s == SignatureOf(t))
    ensures Carried(variants1, s) ==>
              Carried(variants, s) || (exists m :: 0 <= m <= |t| && s == SignatureOf(t[..m])
                                                   && (m == |t| ==> !Blocked(variants, t)))
  {
    assert t[..|t|] == t;
    if variants1 != variants {
      var m, sku :| 0 <= m <= |t| && variants1 == variants + [Variant(sku, RowsOf(t[..m]))]
                    && (m < |t| <==> Blocked(variants, t));
      CarriedSnoc(variants, Variant(sku, RowsOf(t[..m])), s);
      SignaturesAgree(t[..m]);
    }
  }

  lemma GrownSettles(variants: seq<Variant>, variants1: seq<Variant>, t: seq<Choice>, definitions: seq<nat>)
    requires Grown(variants, variants1, t) && t != [] && Ascending(definitions) && Fits(t, definitions)
    ensures Settled(variants1, t)
    ensures !Blocked(variants, t) ==> Carried(variants1, SignatureOf(t))
  {
    assert t[..|t|] == t;
    if variants1 != variants {
      var m, sku :| 0 <= m <= |t| && variants1 == variants + [Variant(sku, RowsOf(t[..m]))]
                    && (m < |t| <==> Blocked(variants, t));
      if Blocked(variants, t) {
        var k :| 0 < k < |t| && Carried(variants, SignatureOf(t[..k]));
        GrownCarries(variants, variants1, t, SignatureOf(t[..k]));
      } else {
        SignaturesAgree(t);
        SignatureAt(t, definitions, definitions[0]);
        CarriedSnoc(variants, Variant(sku, RowsOf(t[..m])), SignatureOf(t));
      }
    }
  }

  lemma GrownApart(variants: seq<Variant>, variants1: seq<Variant>, t: seq<Choice>)
    requires Grown(variants, variants1, t) && Apart(variants)
    ensures Apart(variants1)
  {
    if variants1 != variants {
      var m, sku :| 0 <= m <= |t| && variants1 == variants + [Variant(sku, RowsOf(t[..m]))]
                    && !Carried(variants, SignatureOf(t[..m]));
      SignaturesAgree(t[..m]);
      forall i | 0 <= i < |variants| && MapByDefinition(variants[i].rows) != map[]
        ensures MapByDefinition(variants[i].rows) != SignatureOf(t[..m])
      {
      }
    }
  }

  lemma OneTracks(st: State, t: seq<Choice>, base: string, definitions: seq<nat>)
    requires Ascending(definitions) && Fits(t, definitions) && t != [] && Tracked(st, definitions)
    ensures Tracked(GenerateOne(st, t, base), definitions)
  {
    var st1 := GenerateOne(st, t, base);
    OneGrows(st, t, base, definitions);
    GrownSettles(st.variants, st1.variants, t, definitions);
    forall s | s in st1.known ensures Carried(st1.variants, s) {
      GrownCarries(st.variants, st1.variants, t, s);
    }
    forall u | Fits(u, definitions) && u != [] && Carried(st1.variants, SignatureOf(u)) ensures SignatureOf(u) in st1.known {
      GrownCarries(st.variants, st1.variants, t, SignatureOf(u));
      if !Carried(st.variants, SignatureOf(u)) {
        var m :| 0 <= m <= |t| && SignatureOf(u) == SignatureOf(t[..m]) && (m == |t| ==> !Blocked(st.variants, t));
        if m < |t| {
          PartialDiffers(t, u, definitions, m);
        }
        assert t[..|t|] == t;
      }
    }
  }

  // What a run of the generator does

  predicate AllFit(combinations: seq<seq<Choice>>, definitions: seq<nat>) {
    forall i :: 0 <= i < |combinations| ==> combinations[i] != [] && Fits(combinations[i], definitions)
  }

  lemma SettledStays(variants: seq<Variant>, variants1: seq<Variant>, t: seq<Choice>, u: seq<Choice>)
    requires Grown(variants, variants1, t)
    ensures Blocked(variants, u) ==> Blocked(variants1, u)
    ensures Settled(variants, u) ==> Settled(variants1, u)
  {
    GrownCarries(variants, variants1, t, SignatureOf(u));
    if Blocked(variants, u) {
      var m :| 0 < m < |u| && Carried(variants, SignatureOf(u[..m]));
      GrownCarries(variants, variants1, t, SignatureOf(u[..m]));
    }
  }

  lemma {:induction false} SettledThroughout(st: State, combinations: seq<seq<Choice>>, bases: seq<string>,
                                             definitions: seq<nat>, u: seq<Choice>)
    requires Ascending(definitions) && AllFit(combinations, definitions) && Tracked(st, definitions)
    requires |bases| == |combinations|
    ensures var end := GenerateAll(st, combinations, bases);
            (Carried(st.variants, SignatureOf(u)) ==> Carried(end.variants, SignatureOf(u)))
            && (Settled(st.variants, u) ==> Settled(end.variants, u))
    decreases |combinations|
  {
    if combinations != [] {
      var t := combinations[0];
      var st1 := GenerateOne(st, t, bases[0]);
      OneGrows(st, t, bases[0], definitions);
      OneTracks(st, t, bases[0], definitions);
      SettledStays(st.variants, st1.variants, t, u);
      GrownCarries(st.variants, st1.variants, t, SignatureOf(u));
      SettledThroughout(st1, combinations[1..], bases[1..], definitions, u);
    }
  }

  /** Every combination is counted once and signatures stay distinct. */
  lemma {:induction false} RunCounts(st: State, combinations: seq<seq<Choice>>, bases: seq<string>, definitions: seq<nat>)
    requires Ascending(definitions) && AllFit(combinations, definitions) && Tracked(st, definitions)
    requires |bases| == |combinations|
    ensures var end := GenerateAll(st, combinations, bases);
            && end.created + end.skipped == st.created + st.skipped + |combinations|
            && (Apart(st.variants) ==> Apart(end.variants))
    decreases |combinations|
  {
    if combinations != [] {
      var t := combinations[0];
      var st1 := GenerateOne(st, t, bases[0]);
      OneGrows(st, t, bases[0], definitions);
      OneTracks(st, t, bases[0], definitions);
      if Apart(st.variants) {
        GrownApart(st.variants, st1.variants, t);
      }
      RunCounts(st1, combinations[1..], bases[1..], definitions);
    }
  }

  /** And no combination is left unsettled. */
  lemma {:induction false} RunSettlesAll(st: State, combinations: seq<seq<Choice>>, bases: seq<string>, definitions: seq<nat>)
    requires Ascending(definitions) && AllFit(combinations, definitions) && Tracked(st, definitions)
    requires |bases| == |combinations|
    ensures forall i :: 0 <= i < |combinations| ==>
              Settled(GenerateAll(st, combinations, bases).variants, combinations[i])
    decreases |combinations|
  {
    if combinations != [] {
      var t := combinations[0];
      var st1 := GenerateOne(st, t, bases[0]);
      OneGrows(st, t, bases[0], definitions);
      OneTracks(st, t, bases[0], definitions);
      GrownSettles(st.variants, st1.variants, t, definitions);
      SettledThroughout(st1, combinations[1..], bases[1..], definitions, t);
      RunSettlesAll(st1, combinations[1..], bases[1..], definitions);
    }
  }

  /** Where everything is settled, nothing is created. */
  lemma {:induction false} NothingLeftToCreate(st: State, combinations: seq<seq<Choice>>, bases: seq<string>,
                                               definitions: seq<nat>)
    requires Ascending(definitions) && AllFit(combinations, definitions) && Tracked(st, definitions)
    requires |bases| == |combinations| && forall i :: 0 <= i < |combinations| ==> Settled(st.variants, combinations[i])
    ensures GenerateAll(st, combinations, bases).created == st.created
    decreases |combinations|
  {
    if combinations != [] {
      var t := combinations[0];
      var st1 := GenerateOne(st, t, bases[0]);
      OneGrows(st, t, bases[0], definitions);
      OneTracks(st, t, bases[0], definitions);
      forall i | 0 <= i < |combinations[1..]| ensures Settled(st1.variants, combinations[1..][i]) {
        SettledStays(st.variants, st1.variants, t, combinations[i + 1]);
      }
      NothingLeftToCreate(st1, combinations[1..], bases[1..], definitions);
    }
  }

  /** No part of a missing combination is carried already. */
  predicate Clear(variants: seq<Variant>, combinations: seq<seq<Choice>>) {
    forall i :: 0 <= i < |combinations| ==>
      Carried(variants, SignatureOf(combinations[i])) || !Blocked(variants, combinations[i])
  }

  lemma ClearStays(variants: seq<Variant>, variants1: seq<Variant>, t: seq<Choice>, u: seq<Choice>, definitions: seq<nat>)
    requires Ascending(definitions) && Fits(t, definitions) && Fits(u, definitions)
    requires Grown(variants, variants1, t) && (Carried(variants, SignatureOf(t)) || !Blocked(variants, t))
    requires Carried(variants, SignatureOf(u)) || !Blocked(variants, u)
    ensures Carried(variants1, SignatureOf(u)) || !Blocked(variants1, u)
  {
    GrownCarries(variants, variants1, t, SignatureOf(u));
    if !Carried(variants, SignatureOf(u)) && Blocked(variants1, u) && variants1 != variants {
      var m :| 0 < m < |u| && Carried(variants1, SignatureOf(u[..m]));
      GrownCarries(variants, variants1, t, SignatureOf(u[..m]));
      PartialDiffers(u, t, definitions, m);
      assert false;
    }
  }

  lemma ClearRest(variants: seq<Variant>, variants1: seq<Variant>, combinations: seq<seq<Choice>>, definitions: seq<nat>)
    requires Ascending(definitions) && AllFit(combinations, definitions) && combinations != []
    requires Clear(variants, combinations) && Grown(variants, variants1, combinations[0])
    ensures Clear(variants1, combinations[1..])
  {
    forall i | 0 <= i < |combinations[1..]|
      ensures Carried(variants1, SignatureOf(combinations[1..][i])) || !Blocked(variants1, combinations[1..][i])
    {
      ClearStays(variants, variants1, combinations[0], combinations[i + 1], definitions);
    }
  }

  lemma {:induction false} ClearRunsCreateAll(st: State, combinations: seq<seq<Choice>>, bases: seq<string>,
                                              definitions: seq<nat>)
    requires Ascending(definitions) && AllFit(combinations, definitions) && Tracked(st, definitions)
    requires |bases| == |combinations| && Clear(st.variants, combinations)
    ensures forall i :: 0 <= i < |combinations| ==>
              Carried(GenerateAll(st, combinations, bases).variants, SignatureOf(combinations[i]))
    decreases |combinations|
  {
    if combinations != [] {
      var t := combinations[0];
      var st1 := GenerateOne(st, t, bases[0]);
      OneGrows(st, t, bases[0], definitions);
      OneTracks(st, t, bases[0], definitions);
      GrownSettles(st.variants, st1.variants, t, definitions);
      GrownCarries(st.variants, st1.variants, t, SignatureOf(t));
      ClearRest(st.variants, st1.variants, combinations, definitions);
      ClearRunsCreateAll(st1, combinations[1..], bases[1..], definitions);
      SettledThroughout(st1, combinations[1..], bases[1..], definitions, t);
    }
  }

  /** A missing combination that is blocked stays missing. */
  lemma {:induction false} BlockedStaysMissing(st: State, combinations: seq<seq<Choice>>, bases: seq<string>,
                                               definitions: seq<nat>, u: seq<Choice>)
    requires Ascending(definitions) && AllFit(combinations, definitions) && Tracked(st, definitions)
    requires |bases| == |combinations| && Fits(u, definitions)
    requires !Carried(st.variants, SignatureOf(u)) && Blocked(st.variants, u)
    ensures !Carried(GenerateAll(st, combinations, bases).variants, SignatureOf(u))
    decreases |combinations|
  {
    if combinations != [] {
      var t := combinations[0];
      var st1 := GenerateOne(st, t, bases[0]);
      OneGrows(st, t, bases[0], definitions);
      OneTracks(st, t, bases[0], definitions);
      SettledStays(st.variants, st1.variants, t, u);
      MissingAfterOne(st.variants, st1.variants, t, u, definitions);
      BlockedStaysMissing(st1, combinations[1..], bases[1..], definitions, u);
    }
  }

  lemma MissingAfterOne(variants: seq<Variant>, variants1: seq<Variant>, t: seq<Choice>, u: seq<Choice>, definitions: seq<nat>)
    requires Ascending(definitions) && Fits(t, definitions) && Fits(u, definitions) && Grown(variants, variants1, t)
    requires !Carried(variants, SignatureOf(u)) && Blocked(variants, u)
    ensures !Carried(variants1, SignatureOf(u))
  {
    GrownCarries(variants, variants1, t, SignatureOf(u));
    if Carried(variants1, SignatureOf(u)) {
      var m :| 0 <= m <= |t| && SignatureOf(u) == SignatureOf(t[..m]) && (m == |t| ==> !Blocked(variants, t));
      var k :| 0 < k < |u| && Carried(variants, SignatureOf(u[..k]));
      if m < |t| {
        PartialDiffers(t, u, definitions, m);
      } else {
        assert t[..|t|] == t;
        SameSignatureSamePrefix(u, t, definitions, k);
      }
      assert false;
    }
  }

  // The laws of generate()

  function Definitions(sets: seq<OptionSet>): (d: seq<nat>)
    ensures |d| == |sets| && forall i :: 0 <= i < |d| ==> d[i] == sets[i].definition
  {
    seq(|sets|, i requires 0 <= i < |sets| => sets[i].definition)
  }

  /** What resolving one selection yields: distinct options, all of that definition. */
  predicate ResolvedSet(s: OptionSet) {
    s.options != [] && Unique(s.options) && forall i :: 0 <= i < |s.options| ==> s.options[i].definition == s.definition
  }

  predicate Resolved(sets: seq<OptionSet>) {
    Ascending(Definitions(sets)) && forall i :: 0 <= i < |sets| ==> ResolvedSet(sets[i])
  }

  predicate DistinctNames(s: OptionSet) {
    forall i, j :: 0 <= i < j < |s.options| ==> s.options[i].name != s.options[j].name
  }

  lemma CombinationsFit(sets: seq<OptionSet>)
    requires Resolved(sets) && sets != []
    ensures AllFit(Cartesian(sets), Definitions(sets))
  {
    forall i | 0 <= i < |Cartesian(sets)|
      ensures Cartesian(sets)[i] != [] && Fits(Cartesian(sets)[i], Definitions(sets))
    {
      var t := Cartesian(sets)[i];
      CartesianHas(sets, t);
      forall j | 0 <= j < |t| ensures t[j].definition == sets[j].definition {
        assert ResolvedSet(sets[j]) && t[j] in sets[j].options;
      }
    }
  }

  lemma StartTracked(variants: seq<Variant>, skus: set<string>, definitions: seq<nat>)
    ensures Tracked(Started(variants, skus), definitions)
  {
    forall s ensures s in ExistingSignatures(variants) <==> Carried(variants, s) {
      ExistingAreCarried(variants, s);
    }
  }

  /** Created and skipped add up to the combinations. */
  lemma GenerateAccounts(variants: seq<Variant>, skus: set<string>, sets: seq<OptionSet>, all: seq<seq<Choice>>,
                         bases: seq<string>)
    requires Resolved(sets) && sets != [] && all == Cartesian(sets) && |bases| == |all|
    ensures var end := GenerateAll(Started(variants, skus), all, bases); end.created + end.skipped == |all|
  {
    CombinationsFit(sets);
    StartTracked(variants, skus, Definitions(sets));
    RunCounts(Started(variants, skus), all, bases, Definitions(sets));
  }

  /** The signed variants keep distinct signatures. */
  lemma SignaturesStayApart(variants: seq<Variant>, skus: set<string>, sets: seq<OptionSet>, all: seq<seq<Choice>>,
                            bases: seq<string>)
    requires Resolved(sets) && sets != [] && all == Cartesian(sets) && |bases| == |all| && Apart(variants)
    ensures Apart(GenerateAll(Started(variants, skus), all, bases).variants)
  {
    CombinationsFit(sets);
    StartTracked(variants, skus, Definitions(sets));
    RunCounts(Started(variants, skus), all, bases, Definitions(sets));
  }

  /** A second run over the same selections creates none. */
  lemma SecondRunCreatesNone(variants: seq<Variant>, skus: set<string>, sets: seq<OptionSet>, all: seq<seq<Choice>>,
                             bases: seq<string>, again: seq<string>, first: State)
    requires Resolved(sets) && sets != [] && all == Cartesian(sets) && |bases| == |again| == |all|
    requires first == GenerateAll(Started(variants, skus), all, bases)
    ensures GenerateAll(Started(first.variants, first.skus), all, again).created == 0
  {
    var definitions := Definitions(sets);
    CombinationsFit(sets);
    StartTracked(variants, skus, definitions);
    RunSettlesAll(Started(variants, skus), all, bases, definitions);
    StartTracked(first.variants, first.skus, definitions);
    NothingLeftToCreate(Started(first.variants, first.skus), all, again, definitions);
  }

  lemma Regroup<T>(a: seq<T>, b: seq<T>, c: seq<T>)
    ensures a + (b + c) == a + b + c
  {
  }

  // Runs of the generator

  /** A product's variants and the SKUs its tenant owns. */
  datatype Shelf = Shelf(variants: seq<Variant>, skus: set<string>)

  datatype Request = Request(sets: seq<OptionSet>, price: int, max: nat, bases: seq<string>) {
    /** There is a candidate SKU for every combination. */
    predicate Supplied() {
      |bases| == |Cartesian(sets)|
    }
  }

  predicate AllSupplied(rs: seq<Request>) {
    forall i :: 0 <= i < |rs| ==> rs[i].Supplied()
  }

  predicate AllResolved(rs: seq<Request>) {
    forall i :: 0 <= i < |rs| ==> Resolved(rs[i].sets)
  }

  function Served(shelf: Shelf, r: Request): Shelf
    requires r.Supplied()
  {
    match Generate(shelf.variants, shelf.skus, r.sets, r.price, r.max, r.bases)
    case Success(st) => Shelf(st.variants, st.skus)
    case Failure(_) => shelf
  }

  function ServedAll(shelf: Shelf, rs: seq<Request>): Shelf
    requires AllSupplied(rs)
    decreases rs
  {
    if rs == [] then shelf else ServedAll(Served(shelf, rs[0]), rs[1..])
  }

  /** Over every run of requests signed variants stay distinct, and what was settled stays settled. */
  lemma {:induction false} RunsStayApart(shelf: Shelf, rs: seq<Request>, u: seq<Choice>)
    requires AllSupplied(rs) && AllResolved(rs)
    ensures Apart(shelf.variants) ==> Apart(ServedAll(shelf, rs).variants)
    ensures Settled(shelf.variants, u) ==> Settled(ServedAll(shelf, rs).variants, u)
    decreases rs
  {
    if rs != [] {
      var r := rs[0];
      assert r.Supplied() && Resolved(r.sets);
      if Generate(shelf.variants, shelf.skus, r.sets, r.price, r.max, r.bases).Success? {
        var start := Started(shelf.variants, shelf.skus);
        CombinationsFit(r.sets);
        StartTracked(shelf.variants, shelf.skus, Definitions(r.sets));
        RunCounts(start, Cartesian(r.sets), r.bases, Definitions(r.sets));
        SettledThroughout(start, Cartesian(r.sets), r.bases, Definitions(r.sets), u);
      }
      RunsStayApart(Served(shelf, r), rs[1..], u);
    }
  }

  /** A request that was carried out creates nothing when it is made again, whatever was requested between. */
  lemma LaterRunCreatesNone(shelf: Shelf, r: Request, rs: seq<Request>, again: seq<string>)
    requires r.Supplied() && Resolved(r.sets) && |again| == |r.bases| && AllSupplied(rs) && AllResolved(rs)
    requires Generate(shelf.variants, shelf.skus, r.sets, r.price, r.max, r.bases).Success?
    ensures var later := ServedAll(Served(shelf, r), rs);
            var second := Generate(later.variants, later.skus, r.sets, r.price, r.max, again);
            second.Success? && second.value.created == 0
  {
    var all, definitions := Cartesian(r.sets), Definitions(r.sets);
    var first := Served(shelf, r);
    var later := ServedAll(first, rs);
    CombinationsFit(r.sets);
    StartTracked(shelf.variants, shelf.skus, definitions);
    RunSettlesAll(Started(shelf.variants, shelf.skus), all, r.bases, definitions);
    forall i | 0 <= i < |all| ensures Settled(later.variants, all[i]) {
      RunsStayApart(first, rs, all[i]);
    }
    StartTracked(later.variants, later.skus, definitions);
    NothingLeftToCreate(Started(later.variants, later.skus), all, again, definitions);
  }

  /**
   All requested combinations exist afterwards if and only if no existing signature is a proper
   part of a requested one that is missing.
   */
  lemma AllExistIffClear(variants: seq<Variant>, skus: set<string>, sets: seq<OptionSet>, all: seq<seq<Choice>>,
                         bases: seq<string>)
    requires Resolved(sets) && sets != [] && all == Cartesian(sets) && |bases| == |all|
    ensures var end := GenerateAll(Started(variants, skus), all, bases);
            (forall i :: 0 <= i < |all| ==> Carried(end.variants, SignatureOf(all[i]))) <==> Clear(variants, all)
  {
    var definitions := Definitions(sets);
    CombinationsFit(sets);
    StartTracked(variants, skus, definitions);
    if Clear(variants, all) {
      ClearRunsCreateAll(Started(variants, skus), all, bases, definitions);
    } else {
      var i :| 0 <= i < |all| && !Carried(variants, SignatureOf(all[i])) && Blocked(variants, all[i]);
      BlockedStaysMissing(Started(variants, skus), all, bases, definitions, all[i]);
    }
  }

  lemma NamesDiffer(s: OptionSet, a: Choice, b: Choice)
    requires DistinctNames(s) && a in s.options && b in s.options && a != b
    ensures a.name != b.name
  {
    var i :| 0 <= i < |s.options| && s.options[i] == a;
    var j :| 0 <= j < |s.options| && s.options[j] == b;
    assert if i < j then s.options[i].name != s.options[j].name else s.options[j].name != s.options[i].name;
  }

  /** With distinct names in each set, no two combinations share a signature. */
  lemma {:induction false} SignaturesDiffer(sets: seq<OptionSet>, t: seq<Choice>, u: seq<Choice>)
    requires Resolved(sets) && t in Cartesian(sets) && u in Cartesian(sets) && t != u
    requires forall i :: 0 <= i < |sets| ==> DistinctNames(sets[i])
    ensures SignatureOf(t) != SignatureOf(u)
  {
    var definitions := Definitions(sets);
    CartesianHas(sets, t);
    CartesianHas(sets, u);
    if sets == [] {
      assert false;
    }
    CombinationsFit(sets);
    SignatureAt(t, definitions, 0);
    SignatureAt(u, definitions, 0);
    var i :| 0 <= i < |t| && t[i] != u[i];
    NamesDiffer(sets[i], t[i], u[i]);
    assert definitions[i] in SignatureOf(t) && definitions[i] in SignatureOf(u);
    assert SignatureOf(t)[definitions[i]] == t[i].name && SignatureOf(u)[definitions[i]] == u[i].name;
  }

  /** A product that has plain Red is asked for Red in size S: nothing is created, and a bare variant is left behind. */
  lemma RejectedCombinationLeavesAVariant(sku: string, base: string, red: nat, small: nat)
    ensures var st := Started([Variant(sku, [Row(1, "Red", true)])], {sku});
            var end := GenerateOne(st, [Choice(red, 1, "Red"), Choice(small, 2, "S")], base);
            end.created == 0 && end.skipped == 1 && |end.variants| == 2 && end.variants[1].rows == []
  {
    var existing := Variant(sku, [Row(1, "Red", true)]);
    var st := Started([existing], {sku});
    var t := [Choice(red, 1, "Red"), Choice(small, 2, "S")];
    assert existing.rows[..0] == [] && MapByDefinition(existing.rows) == map[1 := "Red"];
    assert t[..1] == [t[0]] && t[..1][..0] == [];
    assert SignatureOf(t[..1]) == map[1 := "Red"];
    assert MapByDefinition([existing][0].rows) == SignatureOf(t[..1]) && 1 in SignatureOf(t[..1]);
    StartTracked([existing], {sku}, [1, 2]);
    assert Carried([existing], SignatureOf(t[..1])) && 0 < 1 < |t|;
    assert Blocked([existing], t);
    SignatureAt(t, [1, 2], 2);
    assert 2 !in MapByDefinition(existing.rows) && SignatureOf(t) !in st.known by {
      ExistingAreCarried([existing], SignatureOf(t));
    }
    var free := FreshSku(st.skus, base, 1);
    assert [existing] + [Variant(free, [])] == [existing, Variant(free, [])];
    assert RowsOf(t[..0]) == [];
    AddRowsReaches([existing], free, t, [1, 2], 0);
    assert Reach([existing], t, 0) == 0;
  }
}

/** What the attribute value observer checks, against what saving the value makes of the variant. */
module VariantGuard {
  import opened Outcomes
  import opened Variants

  /** A row as it is stored; one being created has no id yet. */
  datatype Stored = Stored(id: Option<nat>, row: Row)

  function RowsIn(stored: seq<Stored>): (rows: seq<Row>)
    ensures |rows| == |stored| && forall i :: 0 <= i < |rows| ==> rows[i] == stored[i].row
  {
    seq(|stored|, i requires 0 <= i < |stored| => stored[i].row)
  }

  function Excluding(stored: seq<Stored>, id: Option<nat>): seq<Stored> {
    if stored == [] then []
    else (if id.Some? && stored[0].id == id then [] else [stored[0]]) + Excluding(stored[1..], id)
  }

  /** The position of the row with this id, |stored| when there is none. */
  function At(stored: seq<Stored>, id: Option<nat>): (i: nat)
    ensures i <= |stored| && (i < |stored| ==> id.Some? && stored[i].id == id)
    ensures forall j :: 0 <= j < i ==> id.None? || stored[j].id != id
  {
    if stored == [] || (id.Some? && stored[0].id == id) then 0 else 1 + At(stored[1..], id)
  }

  /** A pending row takes the place of the row it updates, and otherwise comes last. */
  function Merged(stored: seq<Stored>, pending: Stored): seq<Stored> {
    var i := At(stored, pending.id);
    if i < |stored| then stored[i := pending] else stored + [pending]
  }

  function MergedAll(stored: seq<Stored>, pending: seq<Stored>): seq<Stored>
    decreases pending
  {
    if pending == [] then stored else MergedAll(Merged(stored, pending[0]), pending[1..])
  }

  function CombinedRows(stored: seq<Stored>, pending: seq<Stored>, exclude: Option<nat>): seq<Stored> {
    MergedAll(Excluding(stored, exclude), pending)
  }

  /** What the observer decides on before a value is saved. */
  predicate Refused(siblings: seq<Variant>, stored: seq<Stored>, value: Stored) {
    value.row.defining && Rejected(siblings, RowsIn(CombinedRows(stored, [value], value.id)))
  }

  predicate IdsUnique(stored: seq<Stored>) {
    forall i, j :: 0 <= i < j < |stored| ==> stored[i].id != stored[j].id
  }

  lemma AtNone(stored: seq<Stored>, id: Option<nat>)
    requires forall j :: 0 <= j < |stored| ==> stored[j].id != id
    ensures At(stored, id) == |stored|
  {
  }

  lemma {:induction false} ExcludingAt(stored: seq<Stored>, i: nat)
    requires IdsUnique(stored) && i < |stored| && stored[i].id.Some?
    ensures Excluding(stored, stored[i].id) == stored[..i] + stored[i + 1..]
    ensures At(stored[..i] + stored[i + 1..], stored[i].id) == |stored| - 1
  {
    var without := stored[..i] + stored[i + 1..];
    AtNone(without, stored[i].id);
    if i == 0 {
      assert without == stored[1..];
      ExcludingNone(stored[1..], stored[0].id);
    } else {
      ExcludingAt(stored[1..], i - 1);
      assert without == [stored[0]] + (stored[1..][..i - 1] + stored[1..][i..]);
    }
  }

  lemma {:induction false} ExcludingNone(stored: seq<Stored>, id: Option<nat>)
    requires id.None? || forall j :: 0 <= j < |stored| ==> stored[j].id != id
    ensures Excluding(stored, id) == stored
  {
    if stored != [] {
      ExcludingNone(stored[1..], id);
    }
  }

  // The order of the rows does not matter while no definition repeats

  predicate Shows(rows: seq<Row>, d: nat, name: string) {
    Row(d, name, true) in rows
  }

  lemma {:induction false} MapShows(rows: seq<Row>, d: nat)
    requires !Duplicated(rows)
    ensures d in MapByDefinition(rows) ==> Shows(rows, d, MapByDefinition(rows)[d])
    ensures forall i :: 0 <= i < |rows| && rows[i].defining && rows[i].definition == d ==>
              d in MapByDefinition(rows) && MapByDefinition(rows)[d] == rows[i].name
  {
    if rows != [] {
      var n := |rows| - 1;
      assert rows == rows[..n] + [rows[n]];
      MapShows(rows[..n], d);
      forall i | 0 <= i < |rows| && rows[i].defining && rows[i].definition == d
        ensures d in MapByDefinition(rows) && MapByDefinition(rows)[d] == rows[i].name
      {
        assert i < n ==> rows[..n][i] == rows[i];
      }
    }
  }

  lemma SameRowsSameMap(a: seq<Row>, b: seq<Row>)
    requires !Duplicated(a) && !Duplicated(b) && forall r :: r in a <==> r in b
    ensures MapByDefinition(a) == MapByDefinition(b)
  {
    forall d ensures d in MapByDefinition(a) <==> d in MapByDefinition(b)
      ensures d in MapByDefinition(a) && d in MapByDefinition(b) ==> MapByDefinition(a)[d] == MapByDefinition(b)[d]
    {
      MapShows(a, d);
      MapShows(b, d);
    }
  }

  /** A changed row moved to the end. */
  function MovedLast<T>(s: seq<T>, i: nat, v: T): (moved: seq<T>)
    requires i < |s|
    ensures |moved| == |s| && moved[|s| - 1] == v
    ensures forall k :: 0 <= k < |s| - 1 ==> moved[k] == if k < i then s[k] else s[k + 1]
  {
    s[..i] + s[i + 1..] + [v]
  }

  /** Where the row at `k` of the changed rows went. */
  function Place(n: nat, i: nat, k: nat): (p: nat)
    requires i < n && k < n
    ensures p < n
  {
    if k < i then k else if k == i then n - 1 else k - 1
  }

  predicate Clash(a: Row, b: Row) {
    a.defining && b.defining && a.definition == b.definition
  }

  lemma MovedKeepsClash(rows: seq<Row>, i: nat, v: Row)
    requires i < |rows| && Duplicated(MovedLast(rows, i, v))
    ensures Duplicated(rows[i := v])
  {
    var moved, placed, n := MovedLast(rows, i, v), rows[i := v], |rows|;
    var j, k :| 0 <= j < k < n && moved[j].defining && moved[k].defining && moved[j].definition == moved[k].definition;
    var j1 := if j < i then j else j + 1;
    var k1 := if k == n - 1 then i else if k < i then k else k + 1;
    assert Clash(placed[j1], placed[k1]) && Clash(placed[k1], placed[j1]) && j1 != k1;
  }

  lemma PlacedKeepsClash(rows: seq<Row>, i: nat, v: Row)
    requires i < |rows| && Duplicated(rows[i := v])
    ensures Duplicated(MovedLast(rows, i, v))
  {
    var moved, placed, n := MovedLast(rows, i, v), rows[i := v], |rows|;
    var j, k :| 0 <= j < k < n && placed[j].defining && placed[k].defining && placed[j].definition == placed[k].definition;
    var j1, k1 := Place(n, i, j), Place(n, i, k);
    assert Clash(moved[j1], moved[k1]) && Clash(moved[k1], moved[j1]) && j1 != k1;
  }

  lemma MovedMembers(rows: seq<Row>, i: nat, v: Row, r: Row)
    requires i < |rows|
    ensures r in MovedLast(rows, i, v) <==> r in rows[i := v]
  {
    var moved, placed, n := MovedLast(rows, i, v), rows[i := v], |rows|;
    if r in placed {
      var k :| 0 <= k < n && placed[k] == r;
      assert moved[Place(n, i, k)] == r;
    }
    if r in moved {
      var k :| 0 <= k < n && moved[k] == r;
      assert placed[if k == n - 1 then i else if k < i then k else k + 1] == r;
    }
  }

  lemma MovedRejected(siblings: seq<Variant>, rows: seq<Row>, i: nat, v: Row)
    requires i < |rows| && v.defining
    ensures Rejected(siblings, MovedLast(rows, i, v)) <==> Rejected(siblings, rows[i := v])
  {
    var moved, placed := MovedLast(rows, i, v), rows[i := v];
    if Duplicated(moved) {
      MovedKeepsClash(rows, i, v);
    }
    if Duplicated(placed) {
      PlacedKeepsClash(rows, i, v);
      DefiningShows(moved, |rows| - 1);
      DefiningShows(placed, i);
    } else {
      forall r: Row ensures r in moved <==> r in placed {
        MovedMembers(rows, i, v, r);
      }
      SameRowsSameMap(moved, placed);
    }
  }

  lemma {:induction false} DefiningShows(rows: seq<Row>, i: nat)
    requires i < |rows| && rows[i].defining
    ensures rows[i].definition in MapByDefinition(rows)
  {
    var n := |rows| - 1;
    if i < n {
      DefiningShows(rows[..n], i);
    }
  }

  lemma OnePending(stored: seq<Stored>, value: Stored)
    ensures CombinedRows(stored, [value], value.id) == Merged(Excluding(stored, value.id), value)
  {
    MergedOne(Excluding(stored, value.id), value);
  }

  lemma MergedOne(stored: seq<Stored>, value: Stored)
    ensures MergedAll(stored, [value]) == Merged(stored, value)
  {
    assert [value][1..] == [];
    assert MergedAll(stored, [value]) == MergedAll(Merged(stored, value), []);
  }

  lemma NewComesLast(stored: seq<Stored>, value: Stored)
    requires At(stored, value.id) == |stored|
    ensures Merged(stored, value) == stored + [value]
  {
  }

  lemma ReplacedComesLast(stored: seq<Stored>, value: Stored, i: nat)
    requires IdsUnique(stored) && i < |stored| && value.id.Some? && stored[i].id == value.id
    ensures Merged(Excluding(stored, value.id), value) == MovedLast(stored, i, value)
  {
    ExcludingAt(stored, i);
    NewComesLast(stored[..i] + stored[i + 1..], value);
  }

  lemma CreatedComesLast(stored: seq<Stored>, value: Stored)
    requires value.id.None?
    ensures Merged(Excluding(stored, value.id), value) == stored + [value]
  {
    ExcludingNone(stored, value.id);
    NewComesLast(stored, value);
  }

  lemma CombinedMovesLast(stored: seq<Stored>, value: Stored)
    requires IdsUnique(stored) && (value.id.Some? ==> At(stored, value.id) < |stored|)
    ensures CombinedRows(stored, [value], value.id)
         == if value.id.None? then stored + [value] else MovedLast(stored, At(stored, value.id), value)
  {
    OnePending(stored, value);
    if value.id.None? {
      CreatedComesLast(stored, value);
    } else {
      ReplacedComesLast(stored, value, At(stored, value.id));
    }
  }

  /**
   The check that runs before a value is saved decides exactly on the variant that saving it makes:
   it refuses if and only if that variant repeats a definition or a sibling's combination.
   */
  lemma GuardSeesTheSavedVariant(siblings: seq<Variant>, stored: seq<Stored>, value: Stored)
    requires IdsUnique(stored) && value.row.defining
    requires value.id.Some? ==> At(stored, value.id) < |stored|
    ensures Refused(siblings, stored, value) <==> Rejected(siblings, RowsIn(Merged(stored, value)))
  {
    CombinedMovesLast(stored, value);
    if value.id.Some? {
      var i := At(stored, value.id);
      MovedRejected(siblings, RowsIn(stored), i, value.row);
    }
  }

  // What the guard refuses, row by row

  /** Two values of one variant-defining attribute. */
  predicate Twice(rows: seq<Row>) {
    exists i, j :: 0 <= i < j < |rows| && Clash(rows[i], rows[j])
  }

  /** The same values of the same variant-defining attributes. */
  ghost predicate SameCombination(a: seq<Row>, b: seq<Row>) {
    forall d: nat, name: string :: Row(d, name, true) in a <==> Row(d, name, true) in b
  }

  lemma TwiceIff(rows: seq<Row>)
    ensures Twice(rows) <==> Duplicated(rows)
  {
    if Duplicated(rows) {
      var i, j :| 0 <= i < j < |rows| && rows[i].defining && rows[j].defining && rows[i].definition == rows[j].definition;
      assert Clash(rows[i], rows[j]);
    }
  }

  lemma MapHas(rows: seq<Row>, d: nat, name: string)
    requires !Twice(rows)
    ensures d in MapByDefinition(rows) && MapByDefinition(rows)[d] == name <==> Row(d, name, true) in rows
  {
    TwiceIff(rows);
    MapShows(rows, d);
    assert Shows(rows, d, name) <==> Row(d, name, true) in rows;
  }

  lemma SameMapIff(a: seq<Row>, b: seq<Row>)
    requires !Twice(a) && !Twice(b)
    ensures MapByDefinition(a) == MapByDefinition(b) <==> SameCombination(a, b)
  {
    forall d, name
      ensures (d in MapByDefinition(a) && MapByDefinition(a)[d] == name <==> Row(d, name, true) in a)
      ensures (d in MapByDefinition(b) && MapByDefinition(b)[d] == name <==> Row(d, name, true) in b)
    {
      MapHas(a, d, name);
      MapHas(b, d, name);
    }
    if SameCombination(a, b) {
      forall d ensures d in MapByDefinition(a) <==> d in MapByDefinition(b)
        ensures d in MapByDefinition(a) ==> d in MapByDefinition(b) && MapByDefinition(a)[d] == MapByDefinition(b)[d]
      {
        if d in MapByDefinition(a) {
          assert Row(d, MapByDefinition(a)[d], true) in b;
        }
        if d in MapByDefinition(b) {
          assert Row(d, MapByDefinition(b)[d], true) in a;
        }
      }
    }
  }

  /** A sibling with the same combination. */
  ghost predicate HasTwin(siblings: seq<Variant>, rows: seq<Row>) {
    exists i :: 0 <= i < |siblings| && SameCombination(siblings[i].rows, rows)
  }

  lemma TwinsAreCarried(siblings: seq<Variant>, rows: seq<Row>)
    requires !Twice(rows) && MapByDefinition(rows) != map[]
    requires forall i :: 0 <= i < |siblings| ==> !Twice(siblings[i].rows)
    ensures Carried(siblings, MapByDefinition(rows)) <==> HasTwin(siblings, rows)
  {
    if Carried(siblings, MapByDefinition(rows)) {
      var i :| 0 <= i < |siblings| && MapByDefinition(siblings[i].rows) == MapByDefinition(rows);
      SameMapIff(siblings[i].rows, rows);
    }
    if HasTwin(siblings, rows) {
      var i :| 0 <= i < |siblings| && SameCombination(siblings[i].rows, rows);
      SameMapIff(siblings[i].rows, rows);
    }
  }

  lemma RejectedIff(siblings: seq<Variant>, rows: seq<Row>, at: nat)
    requires at < |rows| && rows[at].defining
    requires forall i :: 0 <= i < |siblings| ==> !Twice(siblings[i].rows)
    ensures Rejected(siblings, rows) <==> Twice(rows) || HasTwin(siblings, rows)
  {
    DefiningShows(rows, at);
    TwiceIff(rows);
    if !Twice(rows) {
      TwinsAreCarried(siblings, rows);
    }
  }

  /**
   A variant-defining value is refused if and only if the rows would then hold two values of one
   such attribute, or the same combination as a sibling.
   */
  lemma GuardRefusesIff(siblings: seq<Variant>, stored: seq<Stored>, value: Stored)
    requires IdsUnique(stored) && value.row.defining
    requires value.id.Some? ==> At(stored, value.id) < |stored|
    requires forall i :: 0 <= i < |siblings| ==> !Twice(siblings[i].rows)
    ensures var saved := RowsIn(if value.id.None? then stored + [value] else stored[At(stored, value.id) := value]);
            Refused(siblings, stored, value) <==> Twice(saved) || HasTwin(siblings, saved)
  {
    var at := if value.id.None? then |stored| else At(stored, value.id);
    var saved := RowsIn(if value.id.None? then stored + [value] else stored[at := value]);
    GuardSeesTheSavedVariant(siblings, stored, value);
    if value.id.None? {
      CreatedLast(stored, value);
    }
    assert saved == RowsIn(Merged(stored, value));
    RejectedIff(siblings, saved, at);
  }

  lemma CreatedLast(stored: seq<Stored>, value: Stored)
    requires value.id.None?
    ensures Merged(stored, value) == stored + [value]
  {
    ExcludingNone(stored, value.id);
    CreatedComesLast(stored, value);
  }
}

/** The bulk generator and the signature service as they run, for one product. */
module VariantService {
  import opened Outcomes
  import opened Variants
  import Text

  class Generator {
    var variants: seq<Variant>
    var skus: set<string>

    constructor (variants: seq<Variant>, skus: set<string>)
      ensures this.variants == variants && this.skus == skus
    {
      this.variants, this.skus := variants, skus;
    }

    // Combinations and signatures

    static method ExpandCombinations(sets: seq<OptionSet>) returns (result: seq<seq<Choice>>)
      ensures result == Cartesian(sets)
    {
      result := [[]];
      var i := 0;
      while i < |sets|
        invariant 0 <= i <= |sets|
        invariant result == Cartesian(sets[..i])
      {
        assert sets[..i + 1][..i] == sets[..i];
        result := ExpandOnce(result, sets[i].options);
        i := i + 1;
      }
      assert sets[..|sets|] == sets;
    }

    static method ExpandOnce(result: seq<seq<Choice>>, options: seq<Choice>) returns (expanded: seq<seq<Choice>>)
      ensures expanded == Extended(result, options)
    {
      expanded := [];
      var j := 0;
      while j < |result|
        invariant 0 <= j <= |result| && expanded == Extended(result[..j], options)
      {
        ghost var before := expanded;
        var k := 0;
        while k < |options|
          invariant 0 <= k <= |options| && expanded == before + Each(result[j], options[..k])
        {
          EachSnoc(result[j], options, k);
          Regroup(before, Each(result[j], options[..k]), [result[j] + [options[k]]]);
          expanded := expanded + [result[j] + [options[k]]];
          k := k + 1;
        }
        assert options[..|options|] == options;
        ExtendedSnoc(result, options, j);
        j := j + 1;
      }
      assert result[..|result|] == result;
    }

    static method SignatureOfChoices(options: seq<Choice>) returns (map_: Signature)
      ensures map_ == SignatureOf(options)
    {
      map_ := map[];
      var i := 0;
      while i < |options|
        invariant 0 <= i <= |options| && map_ == SignatureOf(options[..i])
      {
        assert options[..i + 1][..i] == options[..i];
        map_ := map_[options[i].definition := options[i].name];
        i := i + 1;
      }
      assert options[..|options|] == options;
    }

    static method MapRows(rows: seq<Row>) returns (map_: Signature)
      ensures map_ == MapByDefinition(rows)
    {
      map_ := map[];
      var i := 0;
      while i < |rows|
        invariant 0 <= i <= |rows| && map_ == MapByDefinition(rows[..i])
      {
        assert rows[..i + 1][..i] == rows[..i];
        if rows[i].defining {
          map_ := map_[rows[i].definition := rows[i].name];
        }
        i := i + 1;
      }
      assert rows[..|rows|] == rows;
    }

    /** The first sibling with this combination, if any. */
    static method FindConflictingVariant(siblings: seq<Variant>, own: Signature) returns (found: Option<nat>)
      ensures found.Some? <==> Carried(siblings, own)
      ensures found.Some? ==> found.value < |siblings| && MapByDefinition(siblings[found.value].rows) == own
    {
      if own == map[] {
        return None;
      }
      var i := 0;
      while i < |siblings|
        invariant 0 <= i <= |siblings|
        invariant forall j :: 0 <= j < i ==> MapByDefinition(siblings[j].rows) != own
      {
        var other := MapRows(siblings[i].rows);
        if other == own {
          return Some(i);
        }
        i := i + 1;
      }
      return None;
    }

    method CollectSignatures() returns (signatures: seq<Signature>)
      ensures signatures == ExistingSignatures(variants)
    {
      signatures := [];
      var i := 0;
      while i < |variants|
        invariant 0 <= i <= |variants| && signatures == ExistingSignatures(variants[..i])
      {
        assert variants[..i + 1][..i] == variants[..i];
        var signature := MapRows(variants[i].rows);
        if signature != map[] {
          signatures := signatures + [signature];
        }
        i := i + 1;
      }
      assert variants[..|variants|] == variants;
    }

    // Creating variants

    /** Ends, because no tenant owns all of PREFIX, PREFIX-2, PREFIX-3, ... */
    method UniqueSku(base: string) returns (candidate: string)
      ensures candidate == FreshSku(skus, base, 1)
    {
      candidate := base;
      var attempt := 1;
      while candidate in skus
        invariant attempt >= 1 && candidate == Candidate(base, attempt)
        invariant FreshSku(skus, base, attempt) == FreshSku(skus, base, 1)
        decreases |skus - Tried(base, attempt)|
      {
        OneMoreTried(skus, base, attempt);
        attempt := attempt + 1;
        candidate := base + "-" + Text.Decimal(attempt);
      }
    }

    /** Saves the values of the newest variant one by one; the observer may reject one. */
    method SaveValues(options: seq<Choice>) returns (saved: bool)
      requires variants != []
      modifies this`variants
      ensures (variants, saved) == AddRows(old(variants), options, 0)
    {
      var last := |variants| - 1;
      var j := 0;
      while j < |options|
        invariant 0 <= j <= |options| && |variants| == last + 1
        invariant AddRows(variants, options, j) == AddRows(old(variants), options, 0)
      {
        var rows := variants[last].rows + [Row(options[j].definition, options[j].name, true)];
        var own := MapRows(rows);
        var conflict := FindConflictingVariant(variants[..last], own);
        if own != map[] && (Duplicated(rows) || conflict.Some?) {
          return false;
        }
        variants := variants[last := variants[last].(rows := rows)];
        j := j + 1;
      }
      return true;
    }

    /** The body of the loop over the combinations. */
    method GenerateVariant(known: seq<Signature>, created: nat, skipped: nat, options: seq<Choice>, base: string)
      returns (known1: seq<Signature>, created1: nat, skipped1: nat)
      modifies this
      ensures State(variants, skus, known1, created1, skipped1)
           == GenerateOne(State(old(variants), old(skus), known, created, skipped), options, base)
    {
      known1, created1, skipped1 := known, created, skipped;
      var signature := SignatureOfChoices(options);
      if signature in known {
        skipped1 := skipped + 1;
        return;
      }
      var sku := UniqueSku(base);
      variants, skus := variants + [Variant(sku, [])], skus + {sku};
      var saved := SaveValues(options);
      if saved {
        known1, created1 := known + [signature], created + 1;
      } else {
        skipped1 := skipped + 1;
      }
    }

    method GenerateVariants(sets: seq<OptionSet>, price: int, max: nat, bases: seq<string>)
      returns (result: Result<(nat, nat)>)
      requires |bases| == |Cartesian(sets)|
      modifies this
      ensures match Generate(old(variants), old(skus), sets, price, max, bases)
              case Success(st) => result == Success((st.created, st.skipped)) && variants == st.variants && skus == st.skus
              case Failure(e) => result == Failure(e) && variants == old(variants) && skus == old(skus)
    {
      if price <= 0 || sets == [] {
        return Failure(InvalidArgument);
      }
      var combinations := ExpandCombinations(sets);
      if |combinations| > max {
        return Failure(InvalidArgument);
      }
      var known := CollectSignatures();
      var created, skipped, i := 0, 0, 0;
      ghost var start := Started(variants, skus);
      while i < |combinations|
        invariant 0 <= i <= |combinations|
        invariant GenerateAll(State(variants, skus, known, created, skipped), combinations[i..], bases[i..])
               == GenerateAll(start, combinations, bases)
      {
        assert combinations[i..][1..] == combinations[i + 1..] && bases[i..][1..] == bases[i + 1..];
        known, created, skipped := GenerateVariant(known, created, skipped, combinations[i], bases[i]);
        i := i + 1;
      }
      return Success((created, skipped));
    }

    /** What the theorems about runs say of this object. */
    method Serve(rs: seq<Request>)
      requires AllSupplied(rs)
      modifies this
      ensures Shelf(variants, skus) == ServedAll(old(Shelf(variants, skus)), rs)
    {
      var i := 0;
      while i < |rs|
        invariant 0 <= i <= |rs| && AllSupplied(rs[i..])
        invariant ServedAll(Shelf(variants, skus), rs[i..]) == ServedAll(old(Shelf(variants, skus)), rs)
      {
        assert rs[i..][1..] == rs[i + 1..] && rs[i..][0].Supplied();
        var result := GenerateVariants(rs[i].sets, rs[i].price, rs[i].max, rs[i].bases);
        i := i + 1;
      }
    }
  }
}
