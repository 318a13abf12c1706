/** Branch conditions of condition steps (`approval.condition`): the
    configuration constraint, dotted field-path resolution with
    aggregation, and the type-coercing comparison. */
module Conditions {
  import opened Base
  import opened PyStr

  /** A Python value read from a record.  Date values (`datetime.date`) are
      not instances of `datetime` and take the text branch of the
      comparison, so they are represented by their ISO text. */
  datatype Value =
    | Null                                // None
    | Bool(b: bool)                       // bool (also the False of an unset field)
    | Num(x: real)                        // int or float
    | Text(s: string)                     // char, text, selection, date
    | DateTime(t: int)                    // datetime.datetime
    | Recs(model: string, ids: seq<int>)  // a recordset

  /** The target records as given: for each model, its fields and the value
      a field has on an empty recordset; for each existing record, its
      stored values (a field left out holds its empty value). */
  datatype RecordStore = RecordStore(
    schema: map<string, map<string, Value>>,
    records: map<(string, int), map<string, Value>>)

  /** Outcome of `getattr(recordset, attr)`: a value, an AttributeError (not
      a field), or another exception (`Expected singleton`, a deleted record). */
  datatype Read = Present(v: Value) | Absent | Raises

  predicate IsField(st: RecordStore, m: string, attr: string)
  {
    m in st.schema && attr in st.schema[m]
  }

  function ReadField(st: RecordStore, m: string, ids: seq<int>, attr: string): Read
  {
    if !IsField(st, m, attr) then Absent
    else if |ids| == 0 then Present(st.schema[m][attr])
    else if |ids| > 1 then Raises
    else if (m, ids[0]) !in st.records then Raises
    else if attr in st.records[(m, ids[0])] then Present(st.records[(m, ids[0])][attr])
    else Present(st.schema[m][attr])
  }

  /** `getattr(v, attr, default)`; `None` when an exception escapes. */
  function GetAttr(st: RecordStore, v: Value, attr: string, default: Value): Option<Value>
  {
    match v
    case Recs(m, ids) =>
      (match ReadField(st, m, ids, attr)
       case Present(x) => Some(x)
       case Absent => Some(default)
       case Raises => None)
    case _ => Some(default)
  }

  /** The `for attr in attrs` walk; `None` stands for `return None`. */
  function Walk(st: RecordStore, v: Value, attrs: seq<string>): Option<Value>
    decreases |attrs|
  {
    if attrs == [] then Some(v)
    else
      match GetAttr(st, v, attrs[0], Null)
      case None => None
      case Some(x) => if x == Null then None else Walk(st, x, attrs[1..])
  }

  datatype Aggregation = NoAggregation | Sum | Max | Min | Count

  /** The numeric value of an int, float or bool. */
  function Numeric(v: Value): Option<real>
  {
    match v
    case Num(x) => Some(x)
    case Bool(b) => Some(if b then 1.0 else 0.0)
    case _ => None
  }

  /** `getattr(v, last, 0)` for every single record `v` of the set. */
  function ElementValues(st: RecordStore, m: string, ids: seq<int>, last: string): (r: Option<seq<Value>>)
    ensures r.Some? ==> |r.value| == |ids|
  {
    if ids == [] then Some([])
    else
      match GetAttr(st, Recs(m, [ids[0]]), last, Num(0.0))
      case None => None
      case Some(x) =>
        match ElementValues(st, m, ids[1..], last)
        case None => None
        case Some(rest) => Some([x] + rest)
  }

  /** `sum(...)`: a TypeError (`None`) unless every value is numeric. */
  function SumOf(vals: seq<Value>): Option<real>
  {
    if vals == [] then Some(0.0)
    else
      match (Numeric(vals[0]), SumOf(vals[1..]))
      case (Some(x), Some(t)) => Some(x + t)
      case _ => None
  }

  /** `a > b` (or `a < b` when `!wantMax`) between two numbers or two texts. */
  predicate Beats(a: Value, b: Value, wantMax: bool)
  {
    if Numeric(a).Some? && Numeric(b).Some? then
      (if wantMax then Numeric(a).value > Numeric(b).value else Numeric(a).value < Numeric(b).value)
    else if a.Text? && b.Text? then
      LexCompare(a.s, b.s) == (if wantMax then Gt else Lt)
    else false
  }

  predicate AllNumeric(vals: seq<Value>)
  {
    forall i :: 0 <= i < |vals| ==> Numeric(vals[i]).Some?
  }

  predicate AllText(vals: seq<Value>)
  {
    forall i :: 0 <= i < |vals| ==> vals[i].Text?
  }

  /** `max`/`min` scanning left to right and keeping the current best unless
      a later value beats it. */
  function Extreme(best: Value, rest: seq<Value>, wantMax: bool): (r: Value)
    ensures r == best || r in rest
    decreases |rest|
  {
    if rest == [] then best
    else Extreme(if Beats(rest[0], best, wantMax) then rest[0] else best, rest[1..], wantMax)
  }

  /** `max(...)`/`min(...)` over numbers only or texts only; other mixes are
      a failed resolution. */
  function ExtremeOf(vals: seq<Value>, wantMax: bool): Option<Value>
  {
    if vals != [] && (AllNumeric(vals) || AllText(vals)) then Some(Extreme(vals[0], vals[1..], wantMax))
    else None
  }

  /** The aggregation step after the walk: only a recordset of more than one
      record is aggregated, and each record is asked for the last path
      segment, defaulting to 0. */
  function Aggregate(st: RecordStore, v: Value, last: string, agg: Aggregation): Option<Value>
  {
    if v.Recs? && |v.ids| > 1 then
      match agg
      case Count => Some(Num(|v.ids| as real))
      case NoAggregation => Some(v)
      case Sum =>
        (match ElementValues(st, v.model, v.ids, last)
         case None => None
         case Some(vals) => (match SumOf(vals) case None => None case Some(t) => Some(Num(t))))
      case Max =>
        (match ElementValues(st, v.model, v.ids, last)
         case None => None
         case Some(vals) => ExtremeOf(vals, true))
      case Min =>
        (match ElementValues(st, v.model, v.ids, last)
         case None => None
         case Some(vals) => ExtremeOf(vals, false))
    else Some(v)
  }

  /** `_resolve_field_value` as a value; `Null` is the `None` it returns. */
  function Resolve(st: RecordStore, record: Value, path: Option<string>, agg: Aggregation): Value
  {
    if path.None? then Null   // `False.split` raises; the handler returns None
    else
      var attrs := Split(path.value);
      match Walk(st, record, attrs)
      case None => Null
      case Some(v) =>
        match Aggregate(st, v, attrs[|attrs| - 1], agg)
        case None => Null
        case Some(r) => r
  }

  /** `_resolve_field_value`: the dotted walk reassigning `value`, then the
      aggregation. */
  method ResolveFieldValue(st: RecordStore, record: Value, path: Option<string>, agg: Aggregation) returns (r: Value)
    ensures r == Resolve(st, record, path, agg)
  {
    if path.None? {
      return Null;
    }
    var attrs := Split(path.value);
    var value := record;
    var i := 0;
    while i < |attrs|
      invariant 0 <= i <= |attrs|
      invariant Walk(st, value, attrs[i..]) == Walk(st, record, attrs)
    {
      assert attrs[i..][1..] == attrs[i + 1..];
      var next := GetAttr(st, value, attrs[i], Null);
      if next.None? || next.value == Null {
        return Null;
      }
      value := next.value;
      i := i + 1;
    }
    assert attrs[i..] == [];
    var aggregated := Aggregate(st, value, attrs[|attrs| - 1], agg);
    r := if aggregated.None? then Null else aggregated.value;
  }

  // ----------------------------------------------------------------------
  // Conditions

  datatype Selector = AmountTotal | PartnerId | UserGroup | LastUpdatorGroup | CustomField

  /** One `approval.condition` record.  Unset Char/Many2one fields are `None`. */
  datatype Condition = Condition(
    fieldToCheck: Selector,
    customFieldName: Option<string>,
    aggregation: Aggregation,
    operator: string,
    value: Option<string>,
    groupId: Option<GroupId>,
    nextStep: StepId,
    sequence: int)

  predicate GroupBased(s: Selector) { s == UserGroup || s == LastUpdatorGroup }

  predicate Blank(s: Option<string>) { s.None? || s.value == "" }

  /** `_check_condition_configuration`: the message of the ValidationError
      it raises, or `None` when the record is accepted. */
  function ConfigurationError(c: Condition): (r: Option<string>)
    ensures r.None? <==>
      (GroupBased(c.fieldToCheck) ==> c.groupId.Some?) &&
      (c.fieldToCheck == CustomField ==> !Blank(c.customFieldName)) &&
      (!GroupBased(c.fieldToCheck) && c.fieldToCheck != CustomField ==> !Blank(c.value))
    ensures GroupBased(c.fieldToCheck) ==> (r.None? <==> c.groupId.Some?)
  {
    if GroupBased(c.fieldToCheck) && c.groupId.None? then
      Some("You must select a User Group when the field to check is 'User Group'.")
    else if c.fieldToCheck == CustomField && Blank(c.customFieldName) then
      Some("You must provide a custom field name when using 'Custom Field'.")
    else if !GroupBased(c.fieldToCheck) && c.fieldToCheck != CustomField && Blank(c.value) then
      Some("You must enter a comparison value for the selected field.")
    else None
  }

  /** The operator table; an operator outside it yields `False`. */
  function ApplyOp(op: string, o: Ord): bool
  {
    if op == "=" then o == Eq
    else if op == "!=" then o != Eq
    else if op == ">" then o == Gt
    else if op == "<" then o == Lt
    else if op == ">=" then o != Lt
    else if op == "<=" then o != Gt
    else false
  }

  predicate KnownOperator(op: string)
  {
    op in {"=", "!=", ">", "<", ">=", "<="}
  }

  /** `str(value)` for the values that reach the text branch:
      `None`, a text, or a recordset such as `res.partner(5,)`. */
  function StrOf(v: Value): string
    requires v.Null? || v.Text? || v.Recs?
  {
    match v
    case Null => "None"
    case Text(s) => s
    case Recs(m, ids) => m + "(" + IdsText(ids) + (if |ids| == 1 then "," else "") + ")"
  }

  function IdsText(ids: seq<int>): string
  {
    if ids == [] then ""
    else if |ids| == 1 then IntText(ids[0])
    else IntText(ids[0]) + ", " + IdsText(ids[1..])
  }

  /** `str(self.value)`; an unset value is `False`. */
  function LiteralText(lit: Option<string>): string
  {
    if lit.None? then "False" else lit.value
  }

  /** `float(self.value)`; `float(False)` is 0.0. */
  function LiteralNumber(lit: Option<string>): Option<real>
  {
    if lit.None? then Some(0.0) else ParseFloat(lit.value)
  }

  /** Step 4 of `_evaluate_condition`: coercion, then the operator.  A bool
      is an int in Python, so booleans take the numeric branch.  A datetime
      is compared against a `date`; the six comparisons are all computed
      while the table is built and ordering a datetime against a date raises
      TypeError, so the result is always `False`. */
  function Compare(fv: Value, lit: Option<string>, op: string): bool
  {
    match fv
    case Bool(_) => NumericCompare(Numeric(fv).value, lit, op)
    case Num(x) => NumericCompare(x, lit, op)
    case DateTime(_) => false
    case _ => ApplyOp(op, LexCompare(StrOf(fv), LiteralText(lit)))
  }

  function NumericCompare(x: real, lit: Option<string>, op: string): bool
  {
    var c := LiteralNumber(lit);
    if c.None? then false else ApplyOp(op, CompareReal(x, c.value))
  }

  /** What a condition sees of the request: the target record reference,
      the groups of its creator, and every user's groups. */
  datatype Subject = Subject(
    resModel: string,
    resId: int,
    creatorGroups: set<GroupId>,
    userGroups: map<UserId, set<GroupId>>)

  /** `self.env[res_model].browse(res_id)` gives a non-empty recordset:
      the model is known and the id is not 0. */
  predicate Browsable(st: RecordStore, s: Subject)
  {
    s.resModel in st.schema && s.resId != 0
  }

  function GroupsOfUser(s: Subject, u: UserId): set<GroupId>
  {
    if u in s.userGroups then s.userGroups[u] else {}
  }

  /** `_evaluate_condition`.  Only the `write_uid` read of the last-editor
      check lies outside a handler, so it is the one way to raise. */
  function Evaluate(st: RecordStore, c: Condition, s: Subject): Result<bool>
  {
    if c.fieldToCheck == UserGroup then
      Ok(c.groupId.Some? && c.groupId.value in s.creatorGroups)
    else if !Browsable(st, s) then
      Ok(false)
    else if c.fieldToCheck == LastUpdatorGroup then
      match ReadField(st, s.resModel, [s.resId], "write_uid")
      case Present(Recs(_, editors)) =>
        if |editors| == 0 then Ok(false)
        else if |editors| == 1 then Ok(c.groupId.Some? && c.groupId.value in GroupsOfUser(s, editors[0]))
        else Err(RecordUnreadable)
      case _ => Err(RecordUnreadable)
    else
      var target := Recs(s.resModel, [s.resId]);
      var fieldValue :=
        if c.fieldToCheck == CustomField then
          var v := Resolve(st, target, c.customFieldName, c.aggregation);
          if v == Null then None else Some(v)   // ValidationError, caught
        else
          GetAttr(st, target, if c.fieldToCheck == AmountTotal then "amount_total" else "partner_id", Null);
      if fieldValue.None? then Ok(false)
      else Ok(Compare(fieldValue.value, c.value, c.operator))
  }

  // ----------------------------------------------------------------------
  // Properties

  /** `user_group_id`: true exactly when the group is among the creator's. */
  lemma UserGroupCheck(st: RecordStore, c: Condition, s: Subject)
    requires c.fieldToCheck == UserGroup
    ensures Evaluate(st, c, s) == Ok(c.groupId.Some? && c.groupId.value in s.creatorGroups)
  {
  }

  /** `last_updator_group`: the same test on the single user in `write_uid`. */
  lemma LastUpdatorCheck(st: RecordStore, c: Condition, s: Subject, editor: UserId, m: string)
    requires c.fieldToCheck == LastUpdatorGroup && Browsable(st, s)
    requires ReadField(st, s.resModel, [s.resId], "write_uid") == Present(Recs(m, [editor]))
    ensures Evaluate(st, c, s) == Ok(c.groupId.Some? && c.groupId.value in GroupsOfUser(s, editor))
  {
  }

  /** An unknown model or a zero id makes every non-group condition false. */
  lemma UnbrowsableTargetIsFalse(st: RecordStore, c: Condition, s: Subject)
    requires c.fieldToCheck != UserGroup && !Browsable(st, s)
    ensures Evaluate(st, c, s) == Ok(false)
  {
  }

  /** A custom path that does not resolve is caught: the condition is false. */
  lemma UnresolvedCustomFieldIsFalse(st: RecordStore, c: Condition, s: Subject)
    requires c.fieldToCheck == CustomField
    requires Resolve(st, Recs(s.resModel, [s.resId]), c.customFieldName, c.aggregation) == Null
    ensures Evaluate(st, c, s) == Ok(false)
  {
  }

  /** A custom path on a deleted target record never matches. */
  lemma DeletedTargetCustomFieldIsFalse(st: RecordStore, c: Condition, s: Subject)
    requires c.fieldToCheck == CustomField && (s.resModel, s.resId) !in st.records
    ensures Evaluate(st, c, s) == Ok(false)
  {
    if c.customFieldName.Some? {
      var attrs := Split(c.customFieldName.value);
      assert Walk(st, Recs(s.resModel, [s.resId]), attrs) == None;
    }
  }

  /** Only the last-editor check can raise. */
  lemma OnlyLastUpdatorRaises(st: RecordStore, c: Condition, s: Subject)
    requires c.fieldToCheck != LastUpdatorGroup
    ensures Evaluate(st, c, s).Ok?
  {
  }

  /** Walking a path is walking a prefix and then the rest from there. */
  lemma {:induction false} WalkSplit(st: RecordStore, v: Value, attrs: seq<string>, k: nat)
    requires k <= |attrs|
    ensures Walk(st, v, attrs) ==
      match Walk(st, v, attrs[..k])
      case None => None
      case Some(x) => Walk(st, x, attrs[k..])
    decreases k
  {
    if k > 0 {
      assert attrs[..k][1..] == attrs[1..][..k - 1];
      assert attrs[k..] == attrs[1..][k - 1..];
      var x := GetAttr(st, v, attrs[0], Null);
      if x.Some? && x.value != Null {
        WalkSplit(st, x.value, attrs[1..], k - 1);
      }
    } else {
      assert attrs[..0] == [] && attrs[0..] == attrs;
    }
  }

  /** The walk returns `None` as soon as a segment is missing, whatever follows. */
  lemma WalkStopsAtMissingSegment(st: RecordStore, v: Value, attrs: seq<string>, k: nat, x: Value)
    requires k < |attrs| && Walk(st, v, attrs[..k]) == Some(x)
    requires GetAttr(st, x, attrs[k], Null) in {None, Some(Null)}
    ensures Walk(st, v, attrs) == None
  {
    WalkSplit(st, v, attrs, k);
  }

  /** `count` over a multi-record value is the number of records. */
  lemma CountIsNumberOfRecords(st: RecordStore, record: Value, path: string, m: string, ids: seq<int>)
    requires Walk(st, record, Split(path)) == Some(Recs(m, ids)) && |ids| > 1
    ensures Resolve(st, record, Some(path), Count) == Num(|ids| as real)
  {
  }

  /** `sum(...)` succeeds exactly when every value is numeric; a text value
      makes Python raise `TypeError`, which the resolver turns into a failed
      resolution. */
  lemma {:induction false} SumIsTotal(vals: seq<Value>)
    ensures SumOf(vals).Some? <==> AllNumeric(vals)
  {
    if vals != [] {
      SumIsTotal(vals[1..]);
      assert AllNumeric(vals) <==> Numeric(vals[0]).Some? && AllNumeric(vals[1..]) by {
        assert forall i :: 0 < i < |vals| ==> vals[i] == vals[1..][i - 1];
      }
    }
  }

  /** The sum of numeric values is additive, so it is the total of the
      values' numbers, whatever way the sequence is split. */
  lemma {:induction false} SumAppend(a: seq<Value>, b: seq<Value>)
    requires AllNumeric(a) && AllNumeric(b)
    ensures SumOf(a).Some? && SumOf(b).Some?
    ensures SumOf(a + b) == Some(SumOf(a).value + SumOf(b).value)
  {
    SumIsTotal(a);
    SumIsTotal(b);
    if a == [] {
      assert a + b == b;
    } else {
      assert (a + b)[1..] == a[1..] + b;
      assert AllNumeric(a[1..]) by {
        assert forall i :: 0 <= i < |a[1..]| ==> a[1..][i] == a[i + 1];
      }
      SumAppend(a[1..], b);
    }
  }

  /** Integers and booleans are numbers; text is not. */
  predicate OneKind(x: Value, y: Value, z: Value)
  {
    (Numeric(x).Some? && Numeric(y).Some? && Numeric(z).Some?) || (x.Text? && y.Text? && z.Text?)
  }

  /** A value that beats another is not beaten by it. */
  lemma BeatsAsym(x: Value, y: Value, wantMax: bool)
    requires Beats(x, y, wantMax)
    ensures !Beats(y, x, wantMax)
  {
    if x.Text? && y.Text? {
      LexCompareFlip(x.s, y.s);
      LexCompareFlip(y.s, x.s);
    }
  }

  /** Among values of one kind, "not beaten by" is transitive. */
  lemma NotBeatsTrans(x: Value, y: Value, z: Value, wantMax: bool)
    requires OneKind(x, y, z)
    requires !Beats(x, y, wantMax) && !Beats(y, z, wantMax)
    ensures !Beats(x, z, wantMax)
  {
    if x.Text? && y.Text? && z.Text? {
      if wantMax {
        LexCompareTrans(x.s, y.s, z.s);
      } else {
        LexCompareFlip(x.s, y.s);
        LexCompareFlip(y.s, z.s);
        LexCompareFlip(x.s, z.s);
        LexCompareTrans(z.s, y.s, x.s);
      }
    }
  }

  /** `max` (or `min`) over numbers only or texts only returns a value of
      that kind that no value beats. */
  lemma {:induction false} ExtremeIsExtreme(best: Value, rest: seq<Value>, wantMax: bool)
    requires AllNumeric([best] + rest) || AllText([best] + rest)
    ensures var r := Extreme(best, rest, wantMax);
      (AllNumeric([best] + rest) ==> Numeric(r).Some?) &&
      (AllText([best] + rest) ==> r.Text?) &&
      !Beats(best, r, wantMax) &&
      forall i :: 0 <= i < |rest| ==> !Beats(rest[i], r, wantMax)
    decreases |rest|
  {
    var all := [best] + rest;
    assert all[0] == best;
    if rest == [] {
      if best.Text? {
        LexCompareEq(best.s, best.s);
      }
    } else {
      assert all[1] == rest[0];
      var b := if Beats(rest[0], best, wantMax) then rest[0] else best;
      var next := [b] + rest[1..];
      assert forall i :: 0 < i < |next| ==> next[i] == all[i + 1];
      assert next[0] == all[0] || next[0] == all[1];
      assert AllNumeric(all) ==> AllNumeric(next);
      assert AllText(all) ==> AllText(next);
      ExtremeIsExtreme(b, rest[1..], wantMax);
      var r := Extreme(b, rest[1..], wantMax);
      assert OneKind(best, rest[0], r);
      if Beats(rest[0], best, wantMax) {
        BeatsAsym(rest[0], best, wantMax);
        NotBeatsTrans(best, rest[0], r, wantMax);
      } else {
        NotBeatsTrans(rest[0], best, r, wantMax);
      }
      forall i | 0 <= i < |rest| ensures !Beats(rest[i], r, wantMax) {
        if i > 0 {
          assert rest[i] == rest[1..][i - 1];
        }
      }
    }
  }

  /** `max(...)`/`min(...)` over the aggregated values: a result exactly when
      the values are non-empty and all numbers or all texts, and then one of
      them that no value beats. */
  lemma ExtremeOfIsExtreme(vals: seq<Value>, wantMax: bool)
    ensures ExtremeOf(vals, wantMax).Some? <==> vals != [] && (AllNumeric(vals) || AllText(vals))
    ensures ExtremeOf(vals, wantMax).Some? ==>
      var r := ExtremeOf(vals, wantMax).value;
      r in vals && forall i :: 0 <= i < |vals| ==> !Beats(vals[i], r, wantMax)
  {
    if ExtremeOf(vals, wantMax).Some? {
      assert vals == [vals[0]] + vals[1..];
      ExtremeIsExtreme(vals[0], vals[1..], wantMax);
      forall i | 0 < i < |vals| ensures vals[i] == vals[1..][i - 1] {}
    }
  }

  /** Numeric fields (booleans included) compare against `float(value)`. */
  lemma NumericComparison(fv: Value, lit: string, op: string)
    requires Numeric(fv).Some?
    ensures Compare(fv, Some(lit), op) ==
      (ParseFloat(lit).Some? && ApplyOp(op, CompareReal(Numeric(fv).value, ParseFloat(lit).value)))
  {
  }

  /** A boolean field never reaches the truthy-string coercion: `True` is
      compared with `float("true")`, which fails, and not with `True`. */
  lemma BooleanTakesNumericBranch()
    ensures !Compare(Bool(true), Some("true"), "=")
    ensures Compare(Bool(true), Some("1"), "=")
    ensures Compare(Bool(false), None, "=")
  {
    assert ParseFloat("true") == None by {
      assert IndexOfDot("true") == None;
      assert !IsDigit('t');
    }
    assert ParseFloat("1") == Some(1.0) by {
      IntTextParses(1);
      assert IntText(1) == "1";
    }
  }

  /** Texts compare as strings under the operator. */
  lemma TextComparison(a: string, lit: string)
    ensures Compare(Text(a), Some(lit), "=") <==> a == lit
    ensures Compare(Text(a), Some(lit), "!=") <==> a != lit
    ensures Compare(Text(a), Some(lit), "<") <==> LexCompare(a, lit) == Lt
    ensures Compare(Text(a), Some(lit), ">") <==> LexCompare(lit, a) == Lt
  {
    LexCompareEq(a, lit);
    LexCompareFlip(lit, a);
  }

  /** An operator outside the table yields `False` whatever the value. */
  lemma UnknownOperatorIsFalse(fv: Value, lit: Option<string>, op: string)
    requires !KnownOperator(op)
    ensures !Compare(fv, lit, op)
  {
  }

  /** A datetime-valued field never matches. */
  lemma DateTimeNeverMatches(t: int, lit: Option<string>, op: string)
    ensures !Compare(DateTime(t), lit, op)
  {
  }
}
