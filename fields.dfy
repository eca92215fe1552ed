/** `ObjectIndexer.prepare_field`: the (field, value) pairs one search field
    contributes to a document, by the kind of field and the kind of value. */
module Fields {
  import opened Values

  /** The primary keys of `rows`, in order. */
  function Pks(rows: seq<ModelRef>): seq<Value> {
    seq(|rows|, i requires 0 <= i < |rows| => PkValue(rows[i]))
  }

  /** A list element of a FilterField value: a model instance becomes its key. */
  function PkOrSelf(v: Value): Value {
    if v.Instance? then PkValue(v.ref) else v
  }

  function PkOrSelfAll(items: seq<Value>): seq<Value> {
    seq(|items|, i requires 0 <= i < |items| => PkOrSelf(items[i]))
  }

  /** The value a FilterField writes: a manager or queryset becomes the list of
      its keys, an instance its key, a list or tuple a list with each instance
      replaced by its key; anything else is written unchanged. */
  function FilterValue(v: Value): Value {
    match v
    case Manager(rows) => List(Pks(rows))
    case QuerySet(rows) => List(Pks(rows))
    case Instance(r) => PkValue(r)
    case List(items) => List(PkOrSelfAll(items))
    case Tuple(items) => List(PkOrSelfAll(items))
    case _ => v
  }

  /** What FilterValue produces: the value itself is no instance, manager,
      queryset or tuple, and a list it produces holds no instance (other
      elements, managers included, are kept as they are). */
  predicate Normalised(v: Value) {
    && !v.Instance? && !v.Manager? && !v.QuerySet? && !v.Tuple?
    && (v.List? ==> forall i | 0 <= i < |v.elems| :: !v.elems[i].Instance?)
  }

  /** The pairs `prepare_field(subject, field)` yields. A RelatedFields value that
      is None yields `(field, None)` and then goes on to the single-object
      branch, so it yields two pairs; every other case yields exactly one. */
  function PrepareField(getValue: (Value, Field) -> Value, subject: Value, field: Field)
    : (pairs: seq<(Field, Value)>)
    ensures |pairs| == if field.RelatedFields? && getValue(subject, field).Null? then 2 else 1
    ensures forall i | 0 <= i < |pairs| :: pairs[i].0 == field
    ensures field.SearchField? || field.AutocompleteField? ==> pairs[0].1 == getValue(subject, field)
    ensures field.FilterField? ==> pairs[0].1 == FilterValue(getValue(subject, field)) && Normalised(pairs[0].1)
    ensures field.RelatedFields? && getValue(subject, field).Null? ==> pairs[0].1 == Null
    ensures field.RelatedFields? ==>
              if getValue(subject, field).Manager? then pairs[|pairs| - 1].1.List? else pairs[|pairs| - 1].1.Dict?
    decreases field
  {
    var value := getValue(subject, field);
    match field
    case SearchField(_, _) => [(field, value)]
    case AutocompleteField(_, _) => [(field, value)]
    case FilterField(_, _) => [(field, FilterValue(value))]
    case RelatedFields(_, _, subFields) =>
      (if value.Null? then [(field, Null)] else [])
      + if value.Manager? then
          [(field, List(seq(|value.rows|, i requires 0 <= i < |value.rows| =>
             Dict(DictOf(FieldPairs(getValue, Instance(value.rows[i]), subFields))))))]
        else
          var sub := if value.Callable? then value.result else value;
          [(field, Dict(DictOf(FieldPairs(getValue, sub, subFields))))]
  }

  /** The pairs of all of `fields`, field after field, as the nested loops and
      comprehensions over `prepare_field` visit them. */
  function FieldPairs(getValue: (Value, Field) -> Value, subject: Value, fields: seq<Field>)
    : seq<(Field, Value)>
    decreases fields
  {
    if fields == [] then []
    else FieldPairs(getValue, subject, fields[..|fields| - 1])
         + PrepareField(getValue, subject, fields[|fields| - 1])
  }

  /** The dict comprehension `{f.field_name: value for f, value in pairs}`: a later
      pair with the same name overwrites an earlier one. */
  function DictOf(pairs: seq<(Field, Value)>): map<string, Value>
    decreases |pairs|
  {
    if pairs == [] then map[]
    else
      var last := pairs[|pairs| - 1];
      DictOf(pairs[..|pairs| - 1])[last.0.name := last.1]
  }

  /** FilterValue is idempotent: a normalised value is normalised again to itself. */
  lemma FilterValueIdempotent(v: Value)
    ensures Normalised(FilterValue(v))
    ensures FilterValue(FilterValue(v)) == FilterValue(v)
  {
    var r := FilterValue(v);
    if r.List? {
      assert PkOrSelfAll(r.elems) == r.elems;
    }
  }

  /** A manager or queryset is written as its keys in iteration order; a list or
      tuple keeps its length and order, with instances replaced by their keys. */
  lemma FilterValueKeepsOrder(v: Value)
    ensures (v.Manager? || v.QuerySet?) ==>
      FilterValue(v).List? && |FilterValue(v).elems| == |v.rows|
      && forall i | 0 <= i < |v.rows| :: FilterValue(v).elems[i] == Scalar(v.rows[i].pk)
    ensures (v.List? || v.Tuple?) ==>
      FilterValue(v).List? && |FilterValue(v).elems| == |v.elems|
      && forall i | 0 <= i < |v.elems| ::
           FilterValue(v).elems[i] == if v.elems[i].Instance? then Scalar(v.elems[i].ref.pk) else v.elems[i]
    ensures v.Instance? ==> FilterValue(v) == Scalar(v.ref.pk)
    ensures Normalised(v) && !v.List? ==> FilterValue(v) == v
  {
  }

  /** The keys of a dict comprehension are the names of its pairs. */
  lemma {:induction false} DictOfKeys(pairs: seq<(Field, Value)>)
    ensures DictOf(pairs).Keys == set i | 0 <= i < |pairs| :: pairs[i].0.name
    decreases |pairs|
  {
    if pairs != [] {
      var init := pairs[..|pairs| - 1];
      DictOfKeys(init);
      assert forall i | 0 <= i < |init| :: init[i] == pairs[i];
    }
  }

  /** Later names overwrite earlier ones: the dict holds, under each name, the
      value of the last pair with that name. */
  lemma {:induction false} DictOfLastWins(pairs: seq<(Field, Value)>, j: nat)
    requires j < |pairs|
    requires forall k | j < k < |pairs| :: pairs[k].0.name != pairs[j].0.name
    ensures pairs[j].0.name in DictOf(pairs)
    ensures DictOf(pairs)[pairs[j].0.name] == pairs[j].1
    decreases |pairs|
  {
    if j < |pairs| - 1 {
      var init := pairs[..|pairs| - 1];
      assert init[j] == pairs[j];
      DictOfLastWins(init, j);
    }
  }

  /** Every field contributes pairs, and only its own. */
  lemma {:induction false} FieldPairsCover(getValue: (Value, Field) -> Value, subject: Value, fields: seq<Field>)
    ensures (set i | 0 <= i < |FieldPairs(getValue, subject, fields)| :: FieldPairs(getValue, subject, fields)[i].0)
            == set i | 0 <= i < |fields| :: fields[i]
    decreases |fields|
  {
    if fields != [] {
      var init := fields[..|fields| - 1];
      var last := fields[|fields| - 1];
      FieldPairsCover(getValue, subject, init);
      var ps := FieldPairs(getValue, subject, init);
      var qs := PrepareField(getValue, subject, last);
      var all := ps + qs;
      assert all == FieldPairs(getValue, subject, fields);
      assert (set i | 0 <= i < |all| :: all[i].0)
          == (set i | 0 <= i < |ps| :: ps[i].0) + {last} by {
        assert qs[0].0 == last && all[|ps|] == qs[0];
        forall i | 0 <= i < |all| ensures all[i].0 in (set i | 0 <= i < |ps| :: ps[i].0) + {last} {
          if i >= |ps| { assert all[i] == qs[i - |ps|]; }
          else { assert all[i] == ps[i]; }
        }
        forall i | 0 <= i < |ps| ensures ps[i].0 in (set i | 0 <= i < |all| :: all[i].0) {
          assert all[i] == ps[i];
        }
      }
      assert (set i | 0 <= i < |fields| :: fields[i]) == (set i | 0 <= i < |init| :: init[i]) + {last} by {
        forall i | 0 <= i < |fields| ensures fields[i] in (set i | 0 <= i < |init| :: init[i]) + {last} {
          if i < |init| { assert fields[i] == init[i]; }
        }
      }
    }
  }

  /** A related object is written as a dict whose keys are exactly the names of
      the RelatedFields' sub-fields. */
  lemma SubDocumentKeys(getValue: (Value, Field) -> Value, subject: Value, fields: seq<Field>)
    ensures DictOf(FieldPairs(getValue, subject, fields)).Keys == set i | 0 <= i < |fields| :: fields[i].name
  {
    var ps := FieldPairs(getValue, subject, fields);
    DictOfKeys(ps);
    FieldPairsCover(getValue, subject, fields);
    var pairFields := set i | 0 <= i < |ps| :: ps[i].0;
    var fieldSet := set i | 0 <= i < |fields| :: fields[i];
    forall n | n in DictOf(ps).Keys ensures n in set i | 0 <= i < |fields| :: fields[i].name {
      var i :| 0 <= i < |ps| && ps[i].0.name == n;
      assert ps[i].0 in pairFields;
      var k :| 0 <= k < |fields| && fields[k] == ps[i].0;
    }
    forall k | 0 <= k < |fields| ensures fields[k].name in DictOf(ps).Keys {
      assert fields[k] in fieldSet;
      var i :| 0 <= i < |ps| && ps[i].0 == fields[k];
    }
  }

  /** A RelatedFields over a manager yields one pair: a list with one dict per
      related row, in `.all()` order, each keyed by the sub-field names. */
  lemma RelatedManagerOneDictPerRow(getValue: (Value, Field) -> Value, subject: Value, field: Field)
    requires field.RelatedFields? && getValue(subject, field).Manager?
    ensures var rows := getValue(subject, field).rows;
      var pairs := PrepareField(getValue, subject, field);
      && |pairs| == 1 && pairs[0].1.List? && |pairs[0].1.elems| == |rows|
      && forall i | 0 <= i < |rows| ::
           pairs[0].1.elems[i].Dict?
           && pairs[0].1.elems[i].entries == DictOf(FieldPairs(getValue, Instance(rows[i]), field.fields))
           && pairs[0].1.elems[i].entries.Keys == set k | 0 <= k < |field.fields| :: field.fields[k].name
  {
    var rows := getValue(subject, field).rows;
    forall i | 0 <= i < |rows| ensures DictOf(FieldPairs(getValue, Instance(rows[i]), field.fields)).Keys
                                       == set k | 0 <= k < |field.fields| :: field.fields[k].name {
      SubDocumentKeys(getValue, Instance(rows[i]), field.fields);
    }
  }

  /** A RelatedFields over anything but a manager yields, last, one dict read
      off the related object, after calling it when it is callable; its keys
      are exactly the sub-field names. */
  lemma RelatedObjectOneDict(getValue: (Value, Field) -> Value, subject: Value, field: Field)
    requires field.RelatedFields? && !getValue(subject, field).Manager?
    ensures var v := getValue(subject, field);
      var sub := if v.Callable? then v.result else v;
      var pairs := PrepareField(getValue, subject, field);
      && pairs[|pairs| - 1] == (field, Dict(DictOf(FieldPairs(getValue, sub, field.fields))))
      && pairs[|pairs| - 1].1.entries.Keys == set k | 0 <= k < |field.fields| :: field.fields[k].name
  {
    var v := getValue(subject, field);
    SubDocumentKeys(getValue, if v.Callable? then v.result else v, field.fields);
  }

  /** A RelatedFields whose value is None is not terminal: `(field, None)` comes
      first and is followed by a dict built from the sub-fields read off None. */
  lemma RelatedNoneYieldsTwoPairs(getValue: (Value, Field) -> Value, subject: Value, field: Field)
    requires field.RelatedFields? && getValue(subject, field).Null?
    ensures PrepareField(getValue, subject, field)
            == [(field, Null), (field, Dict(DictOf(FieldPairs(getValue, Null, field.fields))))]
  {
  }
}
