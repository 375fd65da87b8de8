/**
 * The query descriptions the application sends to the order store, and what
 * they select. A query is the base `select('*').order('created_at', {ascending:
 * false})` followed by conjunctive constraints added one at a time.
 */
module Query {
  import opened Wrappers
  import opened Text
  import opened NumberParse
  import opened Calendar
  import opened Commandes

  datatype Column = NumeroClient | Montant | CreatedAt

  datatype Constraint =
    | ClientILike(pattern: string)  // .ilike('numero_client', pattern)
    | MontantGte(min: real)         // .gte('montant', min)
    | MontantLte(max: real)         // .lte('montant', max)
    | CreatedAtGte(start: int)      // .gte('created_at', start)
    | CreatedAtLte(end: int)        // .lte('created_at', end)

  datatype Query = Query(constraints: seq<Constraint>, orderBy: Column, ascending: bool)

  /** `from('commandes').select('*').order('created_at', { ascending: false })`. */
  function BaseQuery(): (q: Query)
    ensures q.constraints == [] && q.orderBy == CreatedAt && !q.ascending
  {
    Query([], CreatedAt, false)
  }

  /** `query = query.<constraint>(...)`. */
  function AndWhere(q: Query, c: Constraint): Query {
    q.(constraints := q.constraints + [c])
  }

  /** `if (cond) { query = query.<constraint>(...) }`. */
  function AndWhereIf(q: Query, cond: bool, c: Constraint): (r: Query)
    ensures r.constraints == q.constraints + (if cond then [c] else [])
    ensures r.orderBy == q.orderBy && r.ascending == q.ascending
  {
    if cond then AndWhere(q, c) else q
  }

  /**
   * The store's REST layer accepts `*` as a spelling of `%` in a `like` or
   * `ilike` pattern: it replaces every `*` of the pattern by `%`, escaped or
   * not, before the pattern reaches the database.
   */
  function StarsAsPercent(p: string): (r: string)
    ensures |r| == |p|
    ensures forall i :: 0 <= i < |r| ==> r[i] != '*'
    ensures forall i :: 0 <= i < |p| && p[i] == '*' ==> r[i] == '%'
    ensures forall i :: 0 <= i < |p| && p[i] != '*' ==> r[i] == p[i]
  {
    seq(|p|, i requires 0 <= i < |p| => if p[i] == '*' then '%' else p[i])
  }

  /**
   * PostgreSQL `ILIKE`: `%` matches any run of characters, `_` any single
   * character, a backslash makes the next pattern character literal, and
   * letters compare without regard to (ASCII) case. A pattern ending in a lone
   * backslash matches nothing.
   */
  predicate PgILike(p: string, s: string)
    decreases |p| + |s|
  {
    if p == [] then s == []
    else if p[0] == '%' then PgILike(p[1..], s) || (s != [] && PgILike(p, s[1..]))
    else if p[0] == '_' then s != [] && PgILike(p[1..], s[1..])
    else if p[0] == '\\' then |p| >= 2 && s != [] && SameIgnoringCase(p[1], s[0]) && PgILike(p[2..], s[1..])
    else s != [] && SameIgnoringCase(p[0], s[0]) && PgILike(p[1..], s[1..])
  }

  /** The store's `ilike` filter: the pattern with `*` read as `%`, then `ILIKE`. */
  predicate ILike(p: string, s: string) {
    PgILike(StarsAsPercent(p), s)
  }

  /** A pattern without `*` reaches the database unchanged. */
  lemma StarFreeILike(p: string, s: string)
    requires forall i :: 0 <= i < |p| ==> p[i] != '*'
    ensures ILike(p, s) <==> PgILike(p, s)
  {
    assert StarsAsPercent(p) == p;
  }

  /** An escaped `*` becomes an escaped `%`: it matches a literal `%`, and no longer a `*`. */
  lemma EscapedStarIsLiteralPercent()
    ensures ILike("\\*", "%") && !ILike("\\*", "*")
  {
    assert StarsAsPercent("\\*") == "\\%";
    assert "\\%"[2..] == [] && "%"[1..] == [] && "*"[1..] == [];
  }

  /** A row satisfies one constraint; SQL comparisons with a null amount are not true. */
  predicate Satisfies(c: Commande, k: Constraint) {
    match k
    case ClientILike(p) => ILike(p, c.numeroClient)
    case MontantGte(min) => c.montant.Some? && c.montant.value >= min
    case MontantLte(max) => c.montant.Some? && c.montant.value <= max
    case CreatedAtGte(start) => c.createdAt >= start
    case CreatedAtLte(end) => c.createdAt <= end
  }

  /** A row is selected by a query when it satisfies every constraint. */
  predicate Matches(c: Commande, q: Query) {
    forall i :: 0 <= i < |q.constraints| ==> Satisfies(c, q.constraints[i])
  }

  /** Adding a constraint narrows the query to the rows that also satisfy it. */
  lemma MatchesAndWhere(c: Commande, q: Query, k: Constraint)
    ensures Matches(c, AndWhere(q, k)) <==> Matches(c, q) && Satisfies(c, k)
  {
    var q' := AndWhere(q, k);
    if Matches(c, q) && Satisfies(c, k) {
      forall i | 0 <= i < |q'.constraints| ensures Satisfies(c, q'.constraints[i]) {
        if i < |q.constraints| {
          assert q'.constraints[i] == q.constraints[i];
        }
      }
    }
    if Matches(c, q') {
      forall i | 0 <= i < |q.constraints| ensures Satisfies(c, q.constraints[i]) {
        assert q'.constraints[i] == q.constraints[i];
      }
      assert q'.constraints[|q.constraints|] == k;
    }
  }

  lemma MatchesAndWhereIf(c: Commande, q: Query, cond: bool, k: Constraint)
    ensures Matches(c, AndWhereIf(q, cond, k)) <==> Matches(c, q) && (cond ==> Satisfies(c, k))
  {
    if cond {
      MatchesAndWhere(c, q, k);
    }
  }

  /** `%` alone matches every string under `ILIKE`. */
  lemma {:induction false} PgPercentMatchesAll(s: string)
    ensures PgILike("%", s)
    decreases |s|
  {
    if s != [] {
      PgPercentMatchesAll(s[1..]);
    }
  }

  /** `%` alone, or its spelling `*`, matches every string. */
  lemma PercentMatchesAll(s: string)
    ensures ILike("%", s) && ILike("*", s)
  {
    assert StarsAsPercent("%") == "%" && StarsAsPercent("*") == "%";
    PgPercentMatchesAll(s);
  }

  /** `n` has none of the characters `ILIKE` treats specially. */
  predicate NoWildcards(n: string) {
    forall i :: 0 <= i < |n| ==> n[i] != '%' && n[i] != '*' && n[i] != '_' && n[i] != '\\'
  }

  /**
   * The client-number pattern `numero + '%'` selects exactly the client numbers
   * that begin with `numero`, ignoring case, when `numero` holds no wildcard.
   */
  lemma ILikePrefix(n: string, s: string)
    requires NoWildcards(n)
    ensures ILike(n + "%", s) <==> IsPrefixIgnoringCase(n, s)
  {
    StarFreeILike(n + "%", s);
    PgILikePrefix(n, s);
  }

  /** The same under `ILIKE` itself, by induction on `n`. */
  lemma {:induction false} PgILikePrefix(n: string, s: string)
    requires NoWildcards(n)
    ensures PgILike(n + "%", s) <==> IsPrefixIgnoringCase(n, s)
    decreases |n|
  {
    if n == [] {
      assert n + "%" == "%";
      PgPercentMatchesAll(s);
    } else {
      assert (n + "%")[0] == n[0];
      assert (n + "%")[1..] == n[1..] + "%";
      if s != [] {
        PgILikePrefix(n[1..], s[1..]);
        if IsPrefixIgnoringCase(n, s) {
          assert IsPrefixIgnoringCase(n[1..], s[1..]) by {
            forall i | 0 <= i < |n| - 1 ensures SameIgnoringCase(n[1..][i], s[1..][i]) {
              assert n[1..][i] == n[i + 1] && s[1..][i] == s[i + 1];
            }
          }
        }
        if SameIgnoringCase(n[0], s[0]) && IsPrefixIgnoringCase(n[1..], s[1..]) {
          forall i | 0 <= i < |n| ensures SameIgnoringCase(n[i], s[i]) {
            if i > 0 {
              assert n[1..][i - 1] == n[i] && s[1..][i - 1] == s[i];
            }
          }
        }
      }
    }
  }

  // ---------------------------------------------------------------------------
  // Custom filter (`applyCustomFilter`)

  /**
   * The raw values of the custom filter form. The two date fields hold either
   * nothing or a calendar date picked in a date input.
   */
  datatype CustomFilterForm = CustomFilterForm(
    numero: string,
    montantMin: string,
    montantMax: string,
    dateDebut: Option<Date>,
    dateFin: Option<Date>)

  /** An amount bound: a trimmed field that is non-empty and parses. */
  function AmountBound(field: string): (r: Option<real>)
    ensures r.Some? ==> Trim(field) != [] && ParseFloat(Trim(field)) == r
    ensures r.None? ==> Trim(field) == [] || ParseFloat(Trim(field)).None?
  {
    var t := Trim(field);
    if t != [] then ParseFloat(t) else None
  }

  /** The criteria the custom filter form yields once its fields are read. */
  datatype CustomCriteria = CustomCriteria(
    numero: string,
    montantMin: Option<real>,
    montantMax: Option<real>,
    dateDebut: Option<Date>,
    dateFin: Option<Date>)

  predicate ValidCriteria(c: CustomCriteria) {
    (c.dateDebut.Some? ==> ValidDate(c.dateDebut.value)) && (c.dateFin.Some? ==> ValidDate(c.dateFin.value))
  }

  /** The first lines of `applyCustomFilter`: the text fields are trimmed and the amounts parsed. */
  function ReadCustomFilter(f: CustomFilterForm): (c: CustomCriteria)
    ensures c.numero == Trim(f.numero)
    ensures c.montantMin == AmountBound(f.montantMin) && c.montantMax == AmountBound(f.montantMax)
    ensures c.dateDebut == f.dateDebut && c.dateFin == f.dateFin
  {
    CustomCriteria(Trim(f.numero), AmountBound(f.montantMin), AmountBound(f.montantMax), f.dateDebut, f.dateFin)
  }

  /** `setHours(0, 0, 0, 0)` on the picked date. */
  function DayStart(d: Date): int
    requires 1 <= d.month <= 12
  {
    StartOfDay(DayNumber(d))
  }

  /** `setHours(23, 59, 59, 999)` on the picked date. */
  function DayEnd(d: Date): int
    requires 1 <= d.month <= 12
  {
    StartOfDay(DayNumber(d)) + MsPerDay - 1
  }

  /** The date-from bound is the first and the date-to bound the last millisecond of their day. */
  lemma DayBounds(d: Date)
    requires ValidDate(d)
    ensures DayOf(DayStart(d)) == DayNumber(d) && DayStart(d) % MsPerDay == 0
    ensures DayOf(DayEnd(d)) == DayNumber(d) && DayOf(DayEnd(d) + 1) == DayNumber(d) + 1
    ensures forall ts :: DayStart(d) <= ts <= DayEnd(d) <==> DayOf(ts) == DayNumber(d)
  {
  }

  /** The constraint `k` if `cond` holds, otherwise nothing. */
  function OptionalConstraint(cond: bool, k: Constraint): (r: seq<Constraint>)
    ensures forall x :: x in r <==> cond && x == k
  {
    if cond then [k] else []
  }

  /**
   * The query `applyCustomFilter` builds from the criteria: the base query, then
   * a client-number prefix when the number is non-empty, amount bounds when
   * present, and the day bounds of the picked dates, in that order.
   */
  function BuildCustomQuery(c: CustomCriteria): (q: Query)
    requires ValidCriteria(c)
    ensures q.orderBy == CreatedAt && !q.ascending
    ensures |q.constraints| <= 5
  {
    var from := if c.dateDebut.Some? then DayStart(c.dateDebut.value) else 0;
    var to := if c.dateFin.Some? then DayEnd(c.dateFin.value) else 0;
    var q1 := AndWhereIf(BaseQuery(), c.numero != [], ClientILike(c.numero + "%"));
    var q2 := AndWhereIf(q1, c.montantMin.Some?, MontantGte(c.montantMin.GetOr(0.0)));
    var q3 := AndWhereIf(q2, c.montantMax.Some?, MontantLte(c.montantMax.GetOr(0.0)));
    var q4 := AndWhereIf(q3, c.dateDebut.Some?, CreatedAtGte(from));
    AndWhereIf(q4, c.dateFin.Some?, CreatedAtLte(to))
  }

  /** The constraints of a custom query, in the order they are added. */
  lemma CustomQueryLayout(c: CustomCriteria)
    requires ValidCriteria(c)
    ensures BuildCustomQuery(c).constraints ==
      OptionalConstraint(c.numero != [], ClientILike(c.numero + "%"))
      + OptionalConstraint(c.montantMin.Some?, MontantGte(c.montantMin.GetOr(0.0)))
      + OptionalConstraint(c.montantMax.Some?, MontantLte(c.montantMax.GetOr(0.0)))
      + OptionalConstraint(c.dateDebut.Some?, CreatedAtGte(if c.dateDebut.Some? then DayStart(c.dateDebut.value) else 0))
      + OptionalConstraint(c.dateFin.Some?, CreatedAtLte(if c.dateFin.Some? then DayEnd(c.dateFin.value) else 0))
  {
  }

  /** The constraints of a custom query are exactly those of its given criteria. */
  lemma CustomQueryMembers(c: CustomCriteria, k: Constraint)
    requires ValidCriteria(c)
    ensures k in BuildCustomQuery(c).constraints <==>
      || (c.numero != [] && k == ClientILike(c.numero + "%"))
      || (c.montantMin.Some? && k == MontantGte(c.montantMin.value))
      || (c.montantMax.Some? && k == MontantLte(c.montantMax.value))
      || (c.dateDebut.Some? && k == CreatedAtGte(DayStart(c.dateDebut.value)))
      || (c.dateFin.Some? && k == CreatedAtLte(DayEnd(c.dateFin.value)))
  {
    CustomQueryLayout(c);
    var a := OptionalConstraint(c.numero != [], ClientILike(c.numero + "%"));
    var b := OptionalConstraint(c.montantMin.Some?, MontantGte(c.montantMin.GetOr(0.0)));
    var m := OptionalConstraint(c.montantMax.Some?, MontantLte(c.montantMax.GetOr(0.0)));
    var d := OptionalConstraint(c.dateDebut.Some?, CreatedAtGte(if c.dateDebut.Some? then DayStart(c.dateDebut.value) else 0));
    var e := OptionalConstraint(c.dateFin.Some?, CreatedAtLte(if c.dateFin.Some? then DayEnd(c.dateFin.value) else 0));
    assert k in a + b + m + d + e <==> k in a || k in b || k in m || k in d || k in e;
  }

  /** A client-number constraint is present exactly when the trimmed number is non-empty. */
  lemma CustomQueryClient(c: CustomCriteria)
    requires ValidCriteria(c)
    ensures c.numero != [] <==> ClientILike(c.numero + "%") in BuildCustomQuery(c).constraints
    ensures forall k :: k in BuildCustomQuery(c).constraints && k.ClientILike? ==> k.pattern == c.numero + "%"
  {
    CustomQueryMembers(c, ClientILike(c.numero + "%"));
    forall k | k in BuildCustomQuery(c).constraints && k.ClientILike?
      ensures k.pattern == c.numero + "%"
    {
      CustomQueryMembers(c, k);
    }
  }

  /** An amount bound is present exactly when its field held a number. */
  lemma CustomQueryAmounts(c: CustomCriteria)
    requires ValidCriteria(c)
    ensures forall v :: MontantGte(v) in BuildCustomQuery(c).constraints <==> c.montantMin == Some(v)
    ensures forall v :: MontantLte(v) in BuildCustomQuery(c).constraints <==> c.montantMax == Some(v)
  {
    forall v | true
      ensures MontantGte(v) in BuildCustomQuery(c).constraints <==> c.montantMin == Some(v)
    {
      CustomQueryMembers(c, MontantGte(v));
    }
    forall v | true
      ensures MontantLte(v) in BuildCustomQuery(c).constraints <==> c.montantMax == Some(v)
    {
      CustomQueryMembers(c, MontantLte(v));
    }
  }

  /** A date bound is present exactly when its date was picked, at that day's first or last millisecond. */
  lemma CustomQueryDates(c: CustomCriteria)
    requires ValidCriteria(c)
    ensures forall t :: CreatedAtGte(t) in BuildCustomQuery(c).constraints
                        <==> c.dateDebut.Some? && t == DayStart(c.dateDebut.value)
    ensures forall t :: CreatedAtLte(t) in BuildCustomQuery(c).constraints
                        <==> c.dateFin.Some? && t == DayEnd(c.dateFin.value)
  {
    forall t | true
      ensures CreatedAtGte(t) in BuildCustomQuery(c).constraints
              <==> c.dateDebut.Some? && t == DayStart(c.dateDebut.value)
    {
      CustomQueryMembers(c, CreatedAtGte(t));
    }
    forall t | true
      ensures CreatedAtLte(t) in BuildCustomQuery(c).constraints
              <==> c.dateFin.Some? && t == DayEnd(c.dateFin.value)
    {
      CustomQueryMembers(c, CreatedAtLte(t));
    }
  }

  /**
   * What a custom query selects, criterion by criterion: every given criterion
   * must hold, amount bounds are inclusive and a null amount fails them, and the
   * date bounds compare whole days.
   */
  lemma CustomQuerySelects(c: CustomCriteria, r: Commande)
    requires ValidCriteria(c)
    ensures Matches(r, BuildCustomQuery(c)) <==>
      && (c.numero == [] || ILike(c.numero + "%", r.numeroClient))
      && (c.montantMin.None? || (r.montant.Some? && r.montant.value >= c.montantMin.value))
      && (c.montantMax.None? || (r.montant.Some? && r.montant.value <= c.montantMax.value))
      && (c.dateDebut.None? || DayOf(r.createdAt) >= DayNumber(c.dateDebut.value))
      && (c.dateFin.None? || DayOf(r.createdAt) <= DayNumber(c.dateFin.value))
  {
    var from := if c.dateDebut.Some? then DayStart(c.dateDebut.value) else 0;
    var to := if c.dateFin.Some? then DayEnd(c.dateFin.value) else 0;
    var q0 := BaseQuery();
    var q1 := AndWhereIf(q0, c.numero != [], ClientILike(c.numero + "%"));
    var q2 := AndWhereIf(q1, c.montantMin.Some?, MontantGte(c.montantMin.GetOr(0.0)));
    var q3 := AndWhereIf(q2, c.montantMax.Some?, MontantLte(c.montantMax.GetOr(0.0)));
    var q4 := AndWhereIf(q3, c.dateDebut.Some?, CreatedAtGte(from));
    assert Matches(r, q0);
    MatchesAndWhereIf(r, q0, c.numero != [], ClientILike(c.numero + "%"));
    MatchesAndWhereIf(r, q1, c.montantMin.Some?, MontantGte(c.montantMin.GetOr(0.0)));
    MatchesAndWhereIf(r, q2, c.montantMax.Some?, MontantLte(c.montantMax.GetOr(0.0)));
    MatchesAndWhereIf(r, q3, c.dateDebut.Some?, CreatedAtGte(from));
    MatchesAndWhereIf(r, q4, c.dateFin.Some?, CreatedAtLte(to));
    if c.dateDebut.Some? { DayBounds(c.dateDebut.value); }
    if c.dateFin.Some? { DayBounds(c.dateFin.value); }
  }

  /** `applyCustomFilter`: read the form, then build the query. */
  function CustomFilterQuery(f: CustomFilterForm): (q: Query)
    requires ValidCriteria(ReadCustomFilter(f))
    ensures q.orderBy == CreatedAt && !q.ascending
  {
    BuildCustomQuery(ReadCustomFilter(f))
  }

  /**
   * What the custom filter selects, stated on the form as typed: the trimmed
   * client number as a prefix pattern when it is non-empty, the amounts that
   * read as numbers as inclusive bounds, and the picked dates from the first
   * millisecond of the start day to the last millisecond of the end day.
   */
  lemma CustomFilterSelects(f: CustomFilterForm, r: Commande)
    requires ValidCriteria(ReadCustomFilter(f))
    ensures Matches(r, CustomFilterQuery(f)) <==>
      && (Trim(f.numero) == [] || ILike(Trim(f.numero) + "%", r.numeroClient))
      && (AmountBound(f.montantMin).None?
          || (r.montant.Some? && r.montant.value >= AmountBound(f.montantMin).value))
      && (AmountBound(f.montantMax).None?
          || (r.montant.Some? && r.montant.value <= AmountBound(f.montantMax).value))
      && (f.dateDebut.None? || DayStart(f.dateDebut.value) <= r.createdAt)
      && (f.dateFin.None? || r.createdAt <= DayEnd(f.dateFin.value))
  {
    CustomQuerySelects(ReadCustomFilter(f), r);
    if f.dateDebut.Some? {
      DayBounds(f.dateDebut.value);
    }
    if f.dateFin.Some? {
      DayBounds(f.dateFin.value);
    }
  }

  /** The text a list container shows when there is no client to the store. */
  const NotConnectedNotice := "❌ Base de données non connectée. Vérifiez votre connexion."

  /**
   * `applyCustomFilter` as written. Without a results container nothing
   * happens; without a client to the store the container shows
   * `NotConnectedNotice` and no query is sent; otherwise the query is
   * extended by one reassignment per filled-in field.
   */
  method ApplyCustomFilter(f: CustomFilterForm, containerPresent: bool, connected: bool)
    returns (sent: Option<Query>, notice: Option<string>)
    requires ValidCriteria(ReadCustomFilter(f))
    ensures sent.Some? <==> containerPresent && connected
    ensures sent.Some? ==> sent.value == CustomFilterQuery(f)
    ensures notice.Some? <==> containerPresent && !connected
    ensures notice.Some? ==> notice.value == NotConnectedNotice
  {
    sent, notice := None, None;
    if !containerPresent {
      return;
    }
    if !connected {
      notice := Some(NotConnectedNotice);
      return;
    }
    var numero := Trim(f.numero);
    var montantMin := Trim(f.montantMin);
    var montantMax := Trim(f.montantMax);
    var query := BaseQuery();
    if numero != [] {
      query := AndWhere(query, ClientILike(numero + "%"));
    }
    if montantMin != [] {
      var min := ParseFloat(montantMin);
      if min.Some? {
        query := AndWhere(query, MontantGte(min.value));
      }
    }
    if montantMax != [] {
      var max := ParseFloat(montantMax);
      if max.Some? {
        query := AndWhere(query, MontantLte(max.value));
      }
    }
    if f.dateDebut.Some? {
      query := AndWhere(query, CreatedAtGte(DayStart(f.dateDebut.value)));
    }
    if f.dateFin.Some? {
      query := AndWhere(query, CreatedAtLte(DayEnd(f.dateFin.value)));
    }
    sent := Some(query);
  }

  /** A form with every field left empty selects every row. */
  lemma EmptyCustomFilterSelectsAll(r: Commande)
    ensures Matches(r, CustomFilterQuery(CustomFilterForm("", "", "", None, None)))
  {
    var c := ReadCustomFilter(CustomFilterForm("", "", "", None, None));
    assert c == CustomCriteria("", None, None, None, None);
    CustomQuerySelects(c, r);
  }

  /** A field holding only digits gives the bound those digits spell. */
  lemma AmountOfDigits(s: string)
    requires |s| > 0 && AllDigits(s)
    ensures AmountBound(s) == Some(NatValue(s) as real)
  {
    assert !IsWhitespace(s[0]) && !IsWhitespace(s[|s| - 1]);
    TrimOfTrimmed(s);
    ParseDigits(s);
  }

  lemma ThousandsValue(d: char)
    requires IsDigit(d)
    ensures NatValue([d, '0', '0', '0']) == 1000 * DigitValue(d)
  {
    var s := [d, '0', '0', '0'];
    assert s[..3] == [d, '0', '0'] && s[..3][..2] == [d, '0'] && s[..3][..2][..1] == [d];
    assert NatValue([d]) == DigitValue(d) by { assert [d][..0] == []; }
    assert NatValue([d, '0']) == 10 * DigitValue(d);
    assert NatValue([d, '0', '0']) == 100 * DigitValue(d);
  }

  /** A field holding a digit followed by three zeros gives a bound of a thousand times that digit. */
  lemma AmountOfThousands(d: char, v: nat)
    requires IsDigit(d) && DigitValue(d) == v
    ensures AmountBound([d, '0', '0', '0']) == Some((1000 * v) as real)
  {
    AmountOfDigits([d, '0', '0', '0']);
    ThousandsValue(d);
  }

  /** Amount bounds 1000 and 5000 exclude an order of 999 and include one of 5000. */
  lemma AmountBoundsAreInclusive(r: Commande)
    requires r.montant == Some(999.0) || r.montant == Some(5000.0)
    ensures Matches(r, CustomFilterQuery(CustomFilterForm("", "1000", "5000", None, None)))
            <==> r.montant == Some(5000.0)
  {
    AmountOfThousands('1', 1);
    AmountOfThousands('5', 5);
    assert "1000" == ['1', '0', '0', '0'] && "5000" == ['5', '0', '0', '0'];
    var c := ReadCustomFilter(CustomFilterForm("", "1000", "5000", None, None));
    assert c == CustomCriteria("", Some(1000.0), Some(5000.0), None, None);
    CustomQuerySelects(c, r);
  }

  // ---------------------------------------------------------------------------
  // Period filter (`loadCommandesForPeriod`, `loadCommandes`)

  /** The values `currentFilter` takes. */
  datatype PeriodFilter = Jour | Semaine | Mois

  /** `periodMap[period]`: any other key gives `undefined`. */
  function PeriodFilterOf(period: string): (r: Option<PeriodFilter>)
    ensures r == Some(Jour) <==> period == "aujourdhui"
    ensures r == Some(Semaine) <==> period == "semaine"
    ensures r == Some(Mois) <==> period == "mois"
  {
    if period == "aujourdhui" then Some(Jour)
    else if period == "semaine" then Some(Semaine)
    else if period == "mois" then Some(Mois)
    else None
  }

  /** The `startDate` the `switch (currentFilter)` computes, if any. */
  function PeriodStart(filter: Option<PeriodFilter>, now: LocalDateTime): (r: Option<int>)
    requires 1 <= now.date.month <= 12
    ensures r.Some? <==> filter.Some?
    ensures r.Some? ==> r.value % MsPerDay == 0
  {
    var d := now.date;
    match filter
    case None => None
    case Some(Jour) => Some(StartOfDay(DaysFromCivil(d.year, d.month, d.day)))
    case Some(Semaine) =>
      var dayOfWeek := Weekday(DayNumber(d));
      Some(StartOfDay(DaysFromCivil(d.year, d.month, d.day - dayOfWeek)))
    case Some(Mois) => Some(StartOfDay(DaysFromCivil(d.year, d.month, 1)))
  }

  /** The query built from `currentFilter`: the base query, then `created_at >= startDate` if any. */
  function PeriodQuery(filter: Option<PeriodFilter>, now: LocalDateTime): (q: Query)
    requires 1 <= now.date.month <= 12
    ensures q.orderBy == CreatedAt && !q.ascending
    ensures PeriodStart(filter, now).None? ==> q.constraints == []
    ensures PeriodStart(filter, now).Some? ==> q.constraints == [CreatedAtGte(PeriodStart(filter, now).value)]
  {
    var start := PeriodStart(filter, now);
    if start.Some? then AndWhere(BaseQuery(), CreatedAtGte(start.value)) else BaseQuery()
  }

  /**
   * The `switch (currentFilter)` shared by `loadCommandesForPeriod` and
   * `loadCommandes`, followed by the optional `created_at` bound.
   */
  method BuildPeriodQuery(currentFilter: Option<PeriodFilter>, now: LocalDateTime) returns (query: Query)
    requires 1 <= now.date.month <= 12
    ensures query == PeriodQuery(currentFilter, now)
  {
    query := BaseQuery();
    var d := now.date;
    var startDate: Option<int> := None;
    match currentFilter {
      case Some(Jour) =>
        startDate := Some(StartOfDay(DaysFromCivil(d.year, d.month, d.day)));
      case Some(Semaine) =>
        var dayOfWeek := Weekday(DayNumber(d));
        startDate := Some(StartOfDay(DaysFromCivil(d.year, d.month, d.day - dayOfWeek)));
      case Some(Mois) =>
        startDate := Some(StartOfDay(DaysFromCivil(d.year, d.month, 1)));
      case None =>
    }
    if startDate.Some? {
      query := AndWhere(query, CreatedAtGte(startDate.value));
    }
  }

  /**
   * `loadCommandesForPeriod(period)`: sets `currentFilter` from the period key
   * whatever happens next. Without the period's list container nothing else
   * happens; without a client to the store the container shows
   * `NotConnectedNotice`; otherwise the period query is sent.
   */
  method LoadCommandesForPeriod(period: string, now: LocalDateTime, containerPresent: bool, connected: bool)
    returns (currentFilter: Option<PeriodFilter>, sent: Option<Query>, notice: Option<string>)
    requires 1 <= now.date.month <= 12
    ensures currentFilter == PeriodFilterOf(period)
    ensures sent.Some? <==> containerPresent && connected
    ensures sent.Some? ==> sent.value == PeriodQuery(currentFilter, now)
    ensures notice.Some? <==> containerPresent && !connected
    ensures notice.Some? ==> notice.value == NotConnectedNotice
  {
    currentFilter := PeriodFilterOf(period);
    sent, notice := None, None;
    if !containerPresent {
      return;
    }
    if !connected {
      notice := Some(NotConnectedNotice);
      return;
    }
    var query := BuildPeriodQuery(currentFilter, now);
    sent := Some(query);
  }

  /**
   * `loadCommandes()`: the main list uses the `currentFilter` last set by a
   * period page; without a client to the store it shows `NotConnectedNotice`.
   */
  method LoadCommandes(currentFilter: Option<PeriodFilter>, now: LocalDateTime, connected: bool)
    returns (sent: Option<Query>, notice: Option<string>)
    requires 1 <= now.date.month <= 12
    ensures sent.Some? <==> connected
    ensures sent.Some? ==> sent.value == PeriodQuery(currentFilter, now)
    ensures notice.Some? <==> !connected
    ensures notice.Some? ==> notice.value == NotConnectedNotice
  {
    if !connected {
      return None, Some(NotConnectedNotice);
    }
    var query := BuildPeriodQuery(currentFilter, now);
    return Some(query), None;
  }

  /** "Today" starts at local midnight of the current date. */
  lemma TodayStart(now: LocalDateTime)
    requires ValidDateTime(now)
    ensures var start := PeriodStart(Some(Jour), now).value;
            start % MsPerDay == 0 && DayOf(start) == DayOf(Timestamp(now))
            && start <= Timestamp(now) < start + MsPerDay
  {
    TimestampDay(now);
  }

  /** "This week" starts at midnight of the most recent Sunday, at most six days back. */
  lemma WeekStart(now: LocalDateTime)
    requires ValidDateTime(now)
    ensures var start := PeriodStart(Some(Semaine), now).value;
            start % MsPerDay == 0 && Weekday(DayOf(start)) == 0
            && start <= Timestamp(now) < start + 7 * MsPerDay
            && DayOf(Timestamp(now)) - DayOf(start) == Weekday(DayOf(Timestamp(now)))
  {
    TimestampDay(now);
    var today := DayNumber(now.date);
    var w := Weekday(today);
    DaysFromCivilShift(now.date.year, now.date.month, now.date.day, w);
    WeekdayOfWeekStart(today);
    var start := StartOfDay(today - w);
    assert PeriodStart(Some(Semaine), now).value == start;
    assert start + w * MsPerDay == StartOfDay(today);
  }

  /** "This month" starts at midnight of the first day of the current month. */
  lemma MonthStart(now: LocalDateTime)
    requires ValidDateTime(now)
    ensures var start := PeriodStart(Some(Mois), now).value;
            start % MsPerDay == 0 && start == StartOfDay(DayNumber(Date(now.date.year, now.date.month, 1)))
            && start <= Timestamp(now) < start + DaysInMonth(now.date.year, now.date.month) * MsPerDay
            && DayOf(Timestamp(now)) - DayOf(start) == now.date.day - 1
  {
    TimestampDay(now);
  }

  /** What a period view selects: the rows created on or after the first day of the period. */
  lemma PeriodSelects(filter: Option<PeriodFilter>, now: LocalDateTime, c: Commande)
    requires ValidDateTime(now)
    ensures filter.None? ==> Matches(c, PeriodQuery(filter, now))
    ensures filter == Some(Jour) ==>
              (Matches(c, PeriodQuery(filter, now)) <==> DayOf(c.createdAt) >= DayOf(Timestamp(now)))
    ensures filter == Some(Semaine) ==>
              (Matches(c, PeriodQuery(filter, now)) <==>
                 DayOf(c.createdAt) >= DayOf(Timestamp(now)) - Weekday(DayOf(Timestamp(now))))
    ensures filter == Some(Mois) ==>
              (Matches(c, PeriodQuery(filter, now)) <==>
                 DayOf(c.createdAt) >= DayOf(Timestamp(now)) - (now.date.day - 1))
  {
    TimestampDay(now);
    var start := PeriodStart(filter, now);
    if start.Some? {
      MatchesAndWhere(c, BaseQuery(), CreatedAtGte(start.value));
      assert Matches(c, BaseQuery());
    }
  }

  /** An unknown period key leaves `currentFilter` undefined and the query unconstrained. */
  lemma UnknownPeriodSelectsAll(period: string, now: LocalDateTime, c: Commande)
    requires ValidDateTime(now)
    requires period != "aujourdhui" && period != "semaine" && period != "mois"
    ensures PeriodFilterOf(period).None?
    ensures PeriodQuery(PeriodFilterOf(period), now).constraints == []
    ensures Matches(c, PeriodQuery(PeriodFilterOf(period), now))
  {
  }
}
