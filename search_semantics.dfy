/** What the statements `search` and `getSearchCount` build select: the WHERE clause evaluated on
    one row, with each `?` bound, in order, to the next value of the parameter list. The main
    result, `WhereMeansMatches`, says the positional binding is right: the clause accepts a row
    exactly when the row meets every condition of the request, each read from its own field. */
module SearchSemantics {
  import opened Wrappers
  import opened Strings
  import opened Js
  import opened Sql
  import opened Members
  import opened QueryBuilder

  /** The value of a text column of a row; `nama` is never NULL. */
  function ColumnValue(m: Member, col: Column): Option<string> {
    match col
    case Nama => Some(m.nama)
    case Fraksi => m.fraksi
    case Partai => m.partai
    case Dapil => m.dapil
    case KotaLahir => m.kota_lahir
    case PendidikanTerakhir => m.pendidikan_terakhir
  }

  /** The text a bound value is compared as against a TEXT column; booleans are bound as the
      integers 1 and 0, and `undefined` and `null` as NULL. */
  function BoundText(v: JsValue): Option<string> {
    match v
    case Undefined => None
    case Null => None
    case Bool(b) => Some(if b then "1" else "0")
    case Num(n) => Some(IntToString(n))
    case Str(s) => Some(s)
  }

  /** A bound value as compared against the INTEGER column `usia`: a numeral string is read as
      its number, any other string stays text, which SQLite orders after every number. */
  datatype Operand = NullOperand | IntOperand(i: int) | TextOperand

  function BoundNumber(v: JsValue): Operand {
    match v
    case Undefined => NullOperand
    case Null => NullOperand
    case Bool(b) => IntOperand(if b then 1 else 0)
    case Num(n) => IntOperand(n)
    case Str(s) => if IsNumeral(s) then IntOperand(ParseInt(s)) else TextOperand
  }

  /** `LOWER(x) LIKE LOWER(?)`; a NULL on either side rejects the row. */
  predicate LikeLowerHolds(x: Option<string>, v: JsValue) {
    x.Some? && BoundText(v).Some? && Like(Lower(x.value), Lower(BoundText(v).value))
  }

  /** `agama = ?`, compared as text. */
  predicate EqualsHolds(x: Option<string>, v: JsValue) {
    x.Some? && BoundText(v) == x
  }

  /** `usia >= ?`. */
  predicate AtLeastHolds(u: Option<int>, v: JsValue) {
    u.Some? && match BoundNumber(v)
               case NullOperand => false
               case IntOperand(i) => u.value >= i
               case TextOperand => false
  }

  /** `usia <= ?`. */
  predicate AtMostHolds(u: Option<int>, v: JsValue) {
    u.Some? && match BoundNumber(v)
               case NullOperand => false
               case IntOperand(i) => u.value <= i
               case TextOperand => true
  }

  /** One condition of the WHERE clause, given the values bound to its own placeholders. */
  predicate Eval(c: Cond, args: seq<JsValue>, m: Member)
    requires |args| == Arity(c)
  {
    match c
    case QueryMatch =>
      exists i :: 0 <= i < |SearchColumns| && LikeLowerHolds(ColumnValue(m, SearchColumns[i]), args[i])
    case FraksiLike => LikeLowerHolds(m.fraksi, args[0])
    case PartaiLike => LikeLowerHolds(m.partai, args[0])
    case AgamaIs => EqualsHolds(m.agama, args[0])
    case PendidikanLike => LikeLowerHolds(m.pendidikan_terakhir, args[0])
    case UsiaAtLeast => AtLeastHolds(m.usia, args[0])
    case UsiaAtMost => AtMostHolds(m.usia, args[0])
  }

  /** `1=1 AND c1 AND c2 ...`: each condition takes its values from the front of what is left of
      the parameter list; too few values rejects the row. */
  predicate Accepts(cs: seq<Cond>, args: seq<JsValue>, m: Member) {
    if cs == [] then true
    else
      |args| >= Arity(cs[0]) && Eval(cs[0], args[..Arity(cs[0])], m) &&
      Accepts(cs[1..], args[Arity(cs[0])..], m)
  }

  /** The case-insensitive `%v%` match a filter value asks for. */
  predicate ContainsLike(x: Option<string>, v: string) {
    x.Some? && Like(Lower(x.value), Lower(Pattern(v)))
  }

  /** What a request asks of a row, each condition stated on the request field it comes from. */
  predicate Matches(m: Member, query: string, f: Filters) {
    (query != "" ==> exists col :: col in SearchColumns && ContainsLike(ColumnValue(m, col), query)) &&
    (Truthy(f.fraksi) ==> ContainsLike(m.fraksi, ToText(f.fraksi))) &&
    (Truthy(f.partai) ==> ContainsLike(m.partai, ToText(f.partai))) &&
    (Truthy(f.agama) ==> EqualsHolds(m.agama, f.agama)) &&
    (Truthy(f.pendidikan) ==> ContainsLike(m.pendidikan_terakhir, ToText(f.pendidikan))) &&
    (Truthy(f.minUsia) ==> AtLeastHolds(m.usia, f.minUsia)) &&
    (Truthy(f.maxUsia) ==> AtMostHolds(m.usia, f.maxUsia))
  }

  // ---------------------------------------------------------------------------------------
  // Which conditions, and how many values.

  lemma ParamsArity(c: Cond, query: string, f: Filters)
    ensures |CondParams(c, query, f)| == Arity(c)
  {
  }

  /** The sum of the arities of a list of conditions. */
  function Arities(cs: seq<Cond>): nat {
    if cs == [] then 0 else Arity(cs[0]) + Arities(cs[1..])
  }

  lemma {:induction false} WhereParamsLength(cs: seq<Cond>, query: string, f: Filters)
    ensures |WhereParams(cs, query, f)| == Arities(cs)
  {
    if cs != [] {
      ParamsArity(cs[0], query, f);
      WhereParamsLength(cs[1..], query, f);
    }
  }

  lemma {:induction false} AritiesAppend(a: seq<Cond>, b: seq<Cond>)
    ensures Arities(a + b) == Arities(a) + Arities(b)
  {
    if a == [] {
      assert a + b == b;
    } else {
      assert (a + b)[1..] == a[1..] + b;
      AritiesAppend(a[1..], b);
    }
  }

  /** How many times `c` occurs in `cs`. */
  function Occurrences(c: Cond, cs: seq<Cond>): nat {
    if cs == [] then 0 else (if cs[0] == c then 1 else 0) + Occurrences(c, cs[1..])
  }

  lemma {:induction false} OccurrencesAppend(c: Cond, a: seq<Cond>, b: seq<Cond>)
    ensures Occurrences(c, a + b) == Occurrences(c, a) + Occurrences(c, b)
  {
    if a == [] {
      assert a + b == b;
    } else {
      assert (a + b)[1..] == a[1..] + b;
      OccurrencesAppend(c, a[1..], b);
    }
  }

  lemma {:induction false} OccurrencesIn(c: Cond, cs: seq<Cond>)
    ensures c in cs <==> Occurrences(c, cs) > 0
  {
    if cs != [] {
      OccurrencesIn(c, cs[1..]);
      assert cs == [cs[0]] + cs[1..];
    }
  }

  lemma OccurrencesWhen(c: Cond, b: bool, d: Cond)
    ensures Occurrences(c, When(b, d)) == if b && d == c then 1 else 0
  {
    if b {
      assert [d][1..] == [];
    }
  }

  /** A condition occurs among the chosen ones as often as in `order` if its test holds, and
      not at all otherwise. */
  lemma {:induction false} ChosenOccurrence(order: seq<Cond>, k: nat, query: string, f: Filters, c: Cond)
    requires k <= |order|
    ensures Holds(c, query, f) ==> Occurrences(c, Chosen(order, k, query, f)) == Occurrences(c, order[..k])
    ensures !Holds(c, query, f) ==> Occurrences(c, Chosen(order, k, query, f)) == 0
  {
    if k > 0 {
      var d := order[k - 1];
      var added := When(Holds(d, query, f), d);
      ChosenOccurrence(order, k - 1, query, f, c);
      assert order[..k] == order[..k - 1] + [d];
      OccurrencesAppend(c, order[..k - 1], [d]);
      OccurrencesAppend(c, Chosen(order, k - 1, query, f), added);
      OccurrencesWhen(c, Holds(d, query, f), d);
      OccurrencesWhen(c, true, d);
    }
  }

  /** Each condition occurs in the list at most once, and exactly when its test holds: a filter
      adds its clause, and its value, iff the filter value is truthy, so `minUsia: 0` or
      `fraksi: ""` adds nothing; the query adds its OR group iff it is not empty. */
  lemma CondsOccurrence(query: string, f: Filters, c: Cond)
    ensures Holds(c, query, f) ==> Occurrences(c, Conds(query, f)) == 1
    ensures !Holds(c, query, f) ==> Occurrences(c, Conds(query, f)) == 0
    ensures c in Conds(query, f) <==> Holds(c, query, f)
  {
    ChosenOccurrence(Order, |Order|, query, f, c);
    assert Order[..|Order|] == Order;
    OrderOnce(c);
    OccurrencesIn(c, Conds(query, f));
  }

  /** Each condition occurs in `Order` once. */
  lemma OrderOnce(c: Cond)
    ensures Occurrences(c, Order) == 1
  {
    var s6 := [UsiaAtMost];
    OccurrencesCons(c, UsiaAtMost, []);
    var s5 := [UsiaAtLeast] + s6;
    OccurrencesCons(c, UsiaAtLeast, s6);
    var s4 := [PendidikanLike] + s5;
    OccurrencesCons(c, PendidikanLike, s5);
    var s3 := [AgamaIs] + s4;
    OccurrencesCons(c, AgamaIs, s4);
    var s2 := [PartaiLike] + s3;
    OccurrencesCons(c, PartaiLike, s3);
    var s1 := [FraksiLike] + s2;
    OccurrencesCons(c, FraksiLike, s2);
    OccurrencesCons(c, QueryMatch, s1);
    assert Order == [QueryMatch] + s1;
  }

  lemma OccurrencesCons(c: Cond, x: Cond, rest: seq<Cond>)
    ensures Occurrences(c, [x] + rest) == (if x == c then 1 else 0) + Occurrences(c, rest)
  {
    assert ([x] + rest)[1..] == rest;
  }

  /** The values the first `k` tests of `order` bind. */
  function HeldArity(order: seq<Cond>, k: nat, query: string, f: Filters): nat
    requires k <= |order|
  {
    if k == 0 then 0
    else HeldArity(order, k - 1, query, f) + (if Holds(order[k - 1], query, f) then Arity(order[k - 1]) else 0)
  }

  lemma {:induction false} ChosenArity(order: seq<Cond>, k: nat, query: string, f: Filters)
    requires k <= |order|
    ensures |WhereParams(Chosen(order, k, query, f), query, f)| == HeldArity(order, k, query, f)
  {
    if k > 0 {
      ChosenArity(order, k - 1, query, f);
      ArityStep(Chosen(order, k - 1, query, f), order[k - 1], Holds(order[k - 1], query, f), query, f);
    }
  }

  /** Adding the optional condition `When(b, c)` adds its arity to the bound values. */
  lemma ArityStep(cs: seq<Cond>, c: Cond, b: bool, query: string, f: Filters)
    ensures |WhereParams(cs + When(b, c), query, f)| ==
            |WhereParams(cs, query, f)| + (if b then Arity(c) else 0)
  {
    WhereParamsLength(cs, query, f);
    WhereParamsLength(cs + When(b, c), query, f);
    AritiesAppend(cs, When(b, c));
    AritiesWhen(b, c);
  }

  lemma AritiesWhen(b: bool, c: Cond)
    ensures Arities(When(b, c)) == if b then Arity(c) else 0
  {
    if b {
      assert [c][1..] == [];
    }
  }

  /** The number of truthy filter values. */
  function TruthyFilters(f: Filters): nat {
    (if Truthy(f.fraksi) then 1 else 0) + (if Truthy(f.partai) then 1 else 0) +
    (if Truthy(f.agama) then 1 else 0) + (if Truthy(f.pendidikan) then 1 else 0) +
    (if Truthy(f.minUsia) then 1 else 0) + (if Truthy(f.maxUsia) then 1 else 0)
  }

  /** Six values for a non-empty query and one per truthy filter. */
  lemma ParamCount(query: string, f: Filters)
    ensures |WhereParams(Conds(query, f), query, f)| == (if query != "" then 6 else 0) + TruthyFilters(f)
  {
    ChosenArity(Order, |Order|, query, f);
    assert HeldArity(Order, 1, query, f) == if query != "" then 6 else 0;
    assert HeldArity(Order, 3, query, f) == HeldArity(Order, 1, query, f) +
      (if Truthy(f.fraksi) then 1 else 0) + (if Truthy(f.partai) then 1 else 0);
    assert HeldArity(Order, 5, query, f) == HeldArity(Order, 3, query, f) +
      (if Truthy(f.agama) then 1 else 0) + (if Truthy(f.pendidikan) then 1 else 0);
  }

  /** The conditions chosen among the first `k` are those among the first `j` followed by those
      among the next `k - j`. */
  lemma {:induction false} ChosenSplit(order: seq<Cond>, j: nat, k: nat, query: string, f: Filters)
    requires j <= k <= |order|
    ensures Chosen(order, k, query, f) == Chosen(order, j, query, f) + Chosen(order[j..], k - j, query, f)
  {
    if k == j {
      assert Chosen(order, j, query, f) + [] == Chosen(order, j, query, f);
    } else {
      ChosenSplit(order, j, k - 1, query, f);
      var c := order[k - 1];
      assert order[j..][k - j - 1] == c;
      AppendAssoc(Chosen(order, j, query, f), Chosen(order[j..], k - 1 - j, query, f), When(Holds(c, query, f), c));
    }
  }

  /** A non-empty query binds the same `%query%` pattern to the six first placeholders; an empty
      query adds no OR group. */
  lemma QueryParams(query: string, f: Filters)
    ensures query != "" ==>
      var p := Str("%" + query + "%");
      |WhereParams(Conds(query, f), query, f)| >= 6 &&
      WhereParams(Conds(query, f), query, f)[..6] == [p, p, p, p, p, p]
    ensures query == "" ==> QueryMatch !in Conds(query, f)
  {
    CondsOccurrence(query, f, QueryMatch);
    if query != "" {
      ChosenSplit(Order, 1, |Order|, query, f);
      assert Chosen(Order, 1, query, f) == [] + [QueryMatch] == [QueryMatch];
      var rest := Chosen(Order[1..], |Order| - 1, query, f);
      WhereConcat([QueryMatch], rest, query, f);
      assert WhereParams([QueryMatch], query, f) == CondParams(QueryMatch, query, f) + WhereParams([], query, f);
    }
  }

  // ---------------------------------------------------------------------------------------
  // The clause accepts exactly the matching rows.

  lemma {:induction false} AcceptsConcat(a: seq<Cond>, b: seq<Cond>, query: string, f: Filters,
                                         rest: seq<JsValue>, m: Member)
    ensures Accepts(a + b, WhereParams(a, query, f) + rest, m) <==>
            Accepts(a, WhereParams(a, query, f), m) && Accepts(b, rest, m)
  {
    if a == [] {
      assert a + b == b;
      assert WhereParams(a, query, f) + rest == rest;
    } else {
      var c := a[0];
      var pc := CondParams(c, query, f);
      var pa := WhereParams(a[1..], query, f);
      ParamsArity(c, query, f);
      WhereParamsLength(a[1..], query, f);
      assert (a + b)[0] == c && (a + b)[1..] == a[1..] + b;
      var args := WhereParams(a, query, f) + rest;
      assert args == pc + (pa + rest);
      assert args[..Arity(c)] == pc && args[Arity(c)..] == pa + rest;
      var own := WhereParams(a, query, f);
      assert own == pc + pa;
      assert own[..Arity(c)] == pc && own[Arity(c)..] == pa;
      AcceptsConcat(a[1..], b, query, f, rest, m);
    }
  }

  /** The WHERE values of `a + b` split between the two parts. */
  lemma AcceptsWhere(a: seq<Cond>, b: seq<Cond>, query: string, f: Filters, m: Member)
    ensures Accepts(a + b, WhereParams(a + b, query, f), m) <==>
            Accepts(a, WhereParams(a, query, f), m) && Accepts(b, WhereParams(b, query, f), m)
  {
    WhereConcat(a, b, query, f);
    AcceptsConcat(a, b, query, f, WhereParams(b, query, f), m);
  }

  /** Condition `c` holds of row `m` with the values the builders bind to it. */
  predicate Met(c: Cond, query: string, f: Filters, m: Member) {
    ParamsArity(c, query, f);
    Eval(c, CondParams(c, query, f), m)
  }

  lemma AcceptsWhen(b: bool, c: Cond, query: string, f: Filters, m: Member)
    ensures Accepts(When(b, c), WhereParams(When(b, c), query, f), m) <==> (b ==> Met(c, query, f, m))
  {
    if b {
      ParamsArity(c, query, f);
      var ps := WhereParams([c], query, f);
      assert [c][1..] == [];
      assert WhereParams([c][1..], query, f) == [];
      assert ps == CondParams(c, query, f) + [];
      assert ps[..Arity(c)] == CondParams(c, query, f) && ps[Arity(c)..] == [];
    }
  }

  /** Each of the first `k` conditions of `order` whose test holds is met. */
  predicate AllMet(order: seq<Cond>, k: nat, query: string, f: Filters, m: Member)
    requires k <= |order|
  {
    k == 0 || (AllMet(order, k - 1, query, f, m) && (Holds(order[k - 1], query, f) ==> Met(order[k - 1], query, f, m)))
  }

  /** The chosen conditions accept a row exactly when each of them is met. */
  lemma {:induction false} AcceptsChosen(order: seq<Cond>, k: nat, query: string, f: Filters, m: Member)
    requires k <= |order|
    ensures Accepts(Chosen(order, k, query, f), WhereParams(Chosen(order, k, query, f), query, f), m) <==>
            AllMet(order, k, query, f, m)
  {
    if k > 0 {
      var c := order[k - 1];
      AcceptsChosen(order, k - 1, query, f, m);
      AcceptsWhere(Chosen(order, k - 1, query, f), When(Holds(c, query, f), c), query, f, m);
      AcceptsWhen(Holds(c, query, f), c, query, f, m);
    }
  }

  /** The OR group with six copies of `%query%` is the containment test on the six columns. */
  lemma QueryGroup(query: string, f: Filters, m: Member)
    ensures Met(QueryMatch, query, f, m) <==>
            exists col :: col in SearchColumns && ContainsLike(ColumnValue(m, col), query)
  {
    var args := CondParams(QueryMatch, query, f);
    assert |args| == |SearchColumns|;
    forall i | 0 <= i < |SearchColumns|
      ensures LikeLowerHolds(ColumnValue(m, SearchColumns[i]), args[i]) <==>
              ContainsLike(ColumnValue(m, SearchColumns[i]), query)
    {
      assert args[i] == Str(Pattern(query));
    }
    if exists col :: col in SearchColumns && ContainsLike(ColumnValue(m, col), query) {
      var col :| col in SearchColumns && ContainsLike(ColumnValue(m, col), query);
      var i :| 0 <= i < |SearchColumns| && SearchColumns[i] == col;
      assert LikeLowerHolds(ColumnValue(m, SearchColumns[i]), args[i]);
    }
  }

  /** `AllMet` over the first four conditions of `Order`. */
  lemma AllMetFirstFour(query: string, f: Filters, m: Member)
    ensures AllMet(Order, 4, query, f, m) <==>
      (query != "" ==> Met(QueryMatch, query, f, m)) &&
      (Truthy(f.fraksi) ==> Met(FraksiLike, query, f, m)) &&
      (Truthy(f.partai) ==> Met(PartaiLike, query, f, m)) &&
      (Truthy(f.agama) ==> Met(AgamaIs, query, f, m))
  {
    assert AllMet(Order, 1, query, f, m) <==> (query != "" ==> Met(QueryMatch, query, f, m));
    assert AllMet(Order, 2, query, f, m) <==>
      (AllMet(Order, 1, query, f, m) && (Truthy(f.fraksi) ==> Met(FraksiLike, query, f, m)));
  }

  /** `AllMet` over the whole of `Order`, condition by condition. */
  lemma AllMetOrder(query: string, f: Filters, m: Member)
    ensures AllMet(Order, |Order|, query, f, m) <==>
      (query != "" ==> Met(QueryMatch, query, f, m)) &&
      (Truthy(f.fraksi) ==> Met(FraksiLike, query, f, m)) &&
      (Truthy(f.partai) ==> Met(PartaiLike, query, f, m)) &&
      (Truthy(f.agama) ==> Met(AgamaIs, query, f, m)) &&
      (Truthy(f.pendidikan) ==> Met(PendidikanLike, query, f, m)) &&
      (Truthy(f.minUsia) ==> Met(UsiaAtLeast, query, f, m)) &&
      (Truthy(f.maxUsia) ==> Met(UsiaAtMost, query, f, m))
  {
    AllMetFirstFour(query, f, m);
    assert AllMet(Order, 5, query, f, m) <==>
      (AllMet(Order, 4, query, f, m) && (Truthy(f.pendidikan) ==> Met(PendidikanLike, query, f, m)));
    assert AllMet(Order, 6, query, f, m) <==>
      (AllMet(Order, 5, query, f, m) && (Truthy(f.minUsia) ==> Met(UsiaAtLeast, query, f, m)));
  }

  /** Each filter condition, with its bound value, is the test `Matches` states for it. */
  lemma FilterMeaning(query: string, f: Filters, m: Member)
    ensures Met(FraksiLike, query, f, m) <==> ContainsLike(m.fraksi, ToText(f.fraksi))
    ensures Met(PartaiLike, query, f, m) <==> ContainsLike(m.partai, ToText(f.partai))
    ensures Met(AgamaIs, query, f, m) <==> EqualsHolds(m.agama, f.agama)
    ensures Met(PendidikanLike, query, f, m) <==> ContainsLike(m.pendidikan_terakhir, ToText(f.pendidikan))
    ensures Met(UsiaAtLeast, query, f, m) <==> AtLeastHolds(m.usia, f.minUsia)
    ensures Met(UsiaAtMost, query, f, m) <==> AtMostHolds(m.usia, f.maxUsia)
  {
  }

  /** Every condition of `Order`, met when its test holds, is what `Matches` asks. */
  lemma MetAll(query: string, f: Filters, m: Member)
    ensures AllMet(Order, |Order|, query, f, m) <==> Matches(m, query, f)
  {
    AllMetOrder(query, f, m);
    QueryGroup(query, f, m);
    FilterMeaning(query, f, m);
  }

  /** The WHERE clause of both statements, with the parameter list both bind, accepts a row
      exactly when the row matches the request. */
  lemma WhereMeansMatches(query: string, f: Filters, m: Member)
    ensures Accepts(Conds(query, f), WhereParams(Conds(query, f), query, f), m) <==> Matches(m, query, f)
  {
    AcceptsChosen(Order, |Order|, query, f, m);
    MetAll(query, f, m);
  }

  /** Without a query or filters (the `/api/members` and `/api/export` requests) every row
      matches. */
  lemma NoFiltersMatchAll(m: Member)
    ensures Matches(m, "", NoFilters)
  {
  }

  // ---------------------------------------------------------------------------------------
  // The meaning of the LIKE tests for values without wildcards.

  /** For a value with no `%` or `_`, the filter is case-insensitive substring containment. */
  lemma ContainsLikeMeaning(x: Option<string>, v: string)
    requires Literal(v)
    ensures ContainsLike(x, v) <==> x.Some? && ContainsCI(x.value, v)
  {
    if x.Some? {
      LowerLikeContains(x.value, v);
    }
  }

  /** The age bounds given as numbers select the rows whose age lies between them, inclusive,
      on top of what the query and the other filters select; a row without an age is never
      selected by a bound. */
  lemma AgeRange(m: Member, query: string, f: Filters, lo: int, hi: int)
    requires f.minUsia == Num(lo) && f.maxUsia == Num(hi) && lo != 0 && hi != 0
    ensures Matches(m, query, f) <==>
      Matches(m, query, f.(minUsia := Undefined, maxUsia := Undefined)) &&
      m.usia.Some? && lo <= m.usia.value <= hi
  {
  }

  /** A `%` or `_` inside a filter value keeps its wildcard meaning: the value `_` matches every
      non-empty column value. */
  lemma WildcardInFilter(x: string)
    requires x != ""
    ensures ContainsLike(Some(x), "_")
  {
    assert Lower(Pattern("_")) == "%" + "_" + "%";
    UnderscoreMatchesAnyChar(Lower(x));
  }
}
