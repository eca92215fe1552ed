/** `ObjectIndexer`: object ids, the base document, and `get_documents`, which
    writes every prepared field value into a document and opens a new document
    whenever the next write would take the current one past 9500 characters. */
module Indexer {
  import opened Values
  import opened Text
  import opened Fields

  /** The size, in characters of `str(doc) + str(value)`, past which a write
      goes into a new document. */
  const SplitThreshold: nat := 9500

  /** The framework's side of indexing: the declared search fields of a model
      (inherited ones included), `field.get_value`, and the lengths of the
      Python renderings `str(doc)` and `str(value)`. */
  datatype Host = Host(
    searchFields: ModelName -> seq<Field>,
    getValue: (Value, Field) -> Value,
    docSize: Document -> nat,
    valueSize: Value -> nat)

  /** `app_label.ObjectName`, the `model` attribute of a document. */
  function ModelLabel(m: ModelName): string {
    m.appLabel + "." + m.objectName
  }

  /** `get_object_id`: `app_label.ObjectName:pk`. */
  function ObjectId(r: ModelRef): string {
    ModelLabel(r.model) + ":" + r.pk
  }

  /** `get_field_key`: the sub-object key of the model that declares a field. */
  function FieldKey(definedIn: ModelName): string {
    definedIn.appLabel + "__" + definedIn.objectName
  }

  /** The objectID of the document with the given suffix; suffix 0 stands for no
      suffix, as `if suffix:` treats 0 and None alike. */
  function SuffixedId(id: string, suffix: nat): string {
    if suffix == 0 then id else id + "_" + DecimalString(suffix)
  }

  /** The language code of an object's locale, when its class is translatable
      and it has a locale. */
  function LocaleOf(obj: IndexedObject): Option<string> {
    if obj.translatable && obj.language.Some? then obj.language else None
  }

  /** `create_base_document(obj, suffix)`. */
  function BaseDocument(obj: IndexedObject, suffix: nat): Document {
    Document(
      objectID := SuffixedId(ObjectId(obj.ref), suffix),
      wagtailManaged := true,
      wagtailObjId := ObjectId(obj.ref),
      locale := LocaleOf(obj),
      model := ModelLabel(obj.ref.model),
      sections := map[])
  }

  /** Django names: app labels and class names hold neither `.` nor `:`. */
  predicate WellFormedModel(m: ModelName) {
    && '.' !in m.appLabel && ':' !in m.appLabel
    && '.' !in m.objectName && ':' !in m.objectName
  }

  /** A reference whose id splits back: a Django model name, and a key with no
      `:` (an integer key never has one; a string key may). */
  predicate WellFormedRef(r: ModelRef) {
    WellFormedModel(r.model) && ':' !in r.pk
  }

  /** A model label has no `:` and splits on `.` into app label and class name. */
  lemma ModelLabelSplits(m: ModelName)
    requires WellFormedModel(m)
    ensures ':' !in ModelLabel(m)
    ensures Split(ModelLabel(m), '.') == [m.appLabel, m.objectName]
  {
    assert Join([m.appLabel, m.objectName], '.') == ModelLabel(m);
    JoinSplit([m.appLabel, m.objectName], '.');
  }

  /** An object id splits back, on `:` and then on `.`, into the parts it was
      made of. */
  lemma ObjectIdSplits(r: ModelRef)
    requires WellFormedRef(r)
    ensures Split(ObjectId(r), ':') == [ModelLabel(r.model), r.pk]
    ensures Split(ModelLabel(r.model), '.') == [r.model.appLabel, r.model.objectName]
  {
    var modelLabel := ModelLabel(r.model);
    ModelLabelSplits(r.model);
    assert Join([modelLabel, r.pk], ':') == ObjectId(r);
    JoinSplit([modelLabel, r.pk], ':');
  }

  /** Object ids are unique per (model, key), whatever the key holds: the first
      `:` of an id ends its label. */
  lemma ObjectIdInjective(r1: ModelRef, r2: ModelRef)
    requires WellFormedModel(r1.model) && WellFormedModel(r2.model)
    requires ObjectId(r1) == ObjectId(r2)
    ensures r1 == r2
  {
    var label1, label2 := ModelLabel(r1.model), ModelLabel(r2.model);
    ModelLabelSplits(r1.model);
    ModelLabelSplits(r2.model);
    assert ObjectId(r1) == label1 + [':'] + r1.pk;
    assert ObjectId(r2) == label2 + [':'] + r2.pk;
    SplitAtFirstSeparator(label1, ':', r1.pk);
    SplitAtFirstSeparator(label2, ':', r2.pk);
    assert label1 == Split(ObjectId(r1), ':')[0] == label2;
    assert r1.pk == ObjectId(r1)[|label1| + 1..];
    assert r2.pk == ObjectId(r2)[|label2| + 1..];
  }

  /** A sub-object key never coincides with a root-level attribute: it holds
      `__`, which none of them does. */
  lemma FieldKeyIsNotRootKey(m: ModelName)
    ensures FieldKey(m) !in RootKeys
  {
    var k := FieldKey(m);
    var i := |m.appLabel|;
    assert k[i] == '_' && k[i + 1] == '_';
  }

  /** The documents of one object have pairwise different objectIDs. */
  lemma SuffixedIdsDistinct(id: string, j: nat, k: nat)
    requires j != k
    ensures SuffixedId(id, j) != SuffixedId(id, k)
  {
    if j != 0 && k != 0 && SuffixedId(id, j) == SuffixedId(id, k) {
      var prefix := id + "_";
      assert SuffixedId(id, j)[|prefix|..] == DecimalString(j);
      assert SuffixedId(id, k)[|prefix|..] == DecimalString(k);
      DecimalStringInjective(j, k);
    }
  }

  // ---------------------------------------------------------------------------
  // get_documents as a fold over the prepared pairs

  /** The documents already closed (appended to `docs`) and the one being filled. */
  datatype Batch = Batch(closed: seq<Document>, current: Document)

  /** `doc[key][name] = v`. */
  function SetEntry(d: Document, key: string, name: string, v: Value): Document {
    var section := if key in d.sections then d.sections[key] else map[];
    d.(sections := d.sections[key := section[name := v]])
  }

  /** The elements of the list held at `doc[key][name]`, or none. */
  function ItemsAt(d: Document, key: string, name: string): seq<Value> {
    if key in d.sections && name in d.sections[key] && d.sections[key][name].List?
    then d.sections[key][name].elems else []
  }

  /** The size check made before every write. */
  predicate Overflows(host: Host, d: Document, v: Value) {
    host.docSize(d) + host.valueSize(v) > SplitThreshold
  }

  /** `docs.append(doc); doc = create_base_document(obj, len(docs))`. */
  function StartNext(obj: IndexedObject, b: Batch): Batch {
    Batch(b.closed + [b.current], BaseDocument(obj, |b.closed| + 1))
  }

  /** Writes a value that is not a list. */
  function WriteValue(host: Host, obj: IndexedObject, b: Batch, key: string, name: string, v: Value): Batch {
    var b' := if Overflows(host, b.current, v) then StartNext(obj, b) else b;
    b'.(current := SetEntry(b'.current, key, name, v))
  }

  /** Appends one element of a list value; a new document starts its own list. */
  function AppendItem(host: Host, obj: IndexedObject, b: Batch, key: string, name: string, v: Value): Batch {
    var b' := if Overflows(host, b.current, v)
              then var n := StartNext(obj, b); n.(current := SetEntry(n.current, key, name, List([])))
              else b;
    b'.(current := SetEntry(b'.current, key, name, List(ItemsAt(b'.current, key, name) + [v])))
  }

  function AppendItems(host: Host, obj: IndexedObject, b: Batch, key: string, name: string, items: seq<Value>): Batch
    decreases |items|
  {
    if items == [] then b
    else AppendItems(host, obj, AppendItem(host, obj, b, key, name, items[0]), key, name, items[1..])
  }

  /** Writes one prepared pair under the key of the model that declares its
      field; a list value is first reset to `[]` and then appended element by
      element. */
  function WritePair(host: Host, obj: IndexedObject, b: Batch, pair: (Field, Value)): Batch {
    var key, name := FieldKey(pair.0.definedIn), pair.0.name;
    if pair.1.List? then
      AppendItems(host, obj, b.(current := SetEntry(b.current, key, name, List([]))), key, name, pair.1.elems)
    else
      WriteValue(host, obj, b, key, name, pair.1)
  }

  function WritePairs(host: Host, obj: IndexedObject, b: Batch, pairs: seq<(Field, Value)>): Batch
    decreases |pairs|
  {
    if pairs == [] then b
    else WritePair(host, obj, WritePairs(host, obj, b, pairs[..|pairs| - 1]), pairs[|pairs| - 1])
  }

  function InitialBatch(obj: IndexedObject): Batch {
    Batch([], BaseDocument(obj, 0))
  }

  /** All the pairs `get_documents` writes, field after field. */
  function ObjectPairs(host: Host, obj: IndexedObject): seq<(Field, Value)> {
    FieldPairs(host.getValue, Instance(obj.ref), host.searchFields(obj.ref.model))
  }

  /** What `get_documents(obj)` returns. */
  function Documents(host: Host, obj: IndexedObject): seq<Document> {
    var b := WritePairs(host, obj, InitialBatch(obj), ObjectPairs(host, obj));
    b.closed + [b.current]
  }

  lemma WritePairsSnoc(host: Host, obj: IndexedObject, b: Batch, pairs: seq<(Field, Value)>, pair: (Field, Value))
    ensures WritePairs(host, obj, b, pairs + [pair]) == WritePair(host, obj, WritePairs(host, obj, b, pairs), pair)
  {
    assert (pairs + [pair])[..|pairs|] == pairs;
  }

  lemma FieldPairsSnoc(getValue: (Value, Field) -> Value, subject: Value, fields: seq<Field>, i: nat)
    requires i < |fields|
    ensures FieldPairs(getValue, subject, fields[..i + 1])
            == FieldPairs(getValue, subject, fields[..i]) + PrepareField(getValue, subject, fields[i])
  {
    assert fields[..i + 1][..i] == fields[..i];
  }

  /** The loop over the elements of a list value: each is appended to the list
      of the current document, which is first closed when the size check
      fails. */
  method AppendListItems(host: Host, obj: IndexedObject, docs: seq<Document>, doc: Document,
                         key: string, name: string, items: seq<Value>)
    returns (docs': seq<Document>, doc': Document)
    ensures Batch(docs', doc') == AppendItems(host, obj, Batch(docs, doc), key, name, items)
  {
    docs', doc' := docs, doc;
    for k := 0 to |items|
      invariant AppendItems(host, obj, Batch(docs', doc'), key, name, items[k..])
                == AppendItems(host, obj, Batch(docs, doc), key, name, items)
    {
      docs', doc' := AppendListItem(host, obj, docs', doc', key, name, items[k]);
      assert items[k..][1..] == items[k + 1..];
    }
  }

  /** The body of the loop over a list's elements. */
  method AppendListItem(host: Host, obj: IndexedObject, docs: seq<Document>, doc: Document,
                        key: string, name: string, item: Value)
    returns (docs': seq<Document>, doc': Document)
    ensures Batch(docs', doc') == AppendItem(host, obj, Batch(docs, doc), key, name, item)
  {
    docs', doc' := docs, doc;
    if host.docSize(doc') + host.valueSize(item) > SplitThreshold {
      docs' := docs' + [doc'];
      doc' := BaseDocument(obj, |docs'|);
      doc' := SetEntry(doc', key, name, List([]));
    }
    doc' := SetEntry(doc', key, name, List(ItemsAt(doc', key, name) + [item]));
  }

  /** The body of the inner loop of `get_documents`: writes one prepared pair,
      element by element when its value is a list, closing the current
      document whenever the size check fails. */
  method WritePreparedPair(host: Host, obj: IndexedObject, docs: seq<Document>, doc: Document, pair: (Field, Value))
    returns (docs': seq<Document>, doc': Document)
    ensures Batch(docs', doc') == WritePair(host, obj, Batch(docs, doc), pair)
  {
    var field, value := pair.0, pair.1;
    var key, name := FieldKey(field.definedIn), field.name;
    docs', doc' := docs, doc;
    if value.List? {
      doc' := SetEntry(doc', key, name, List([]));
      docs', doc' := AppendListItems(host, obj, docs', doc', key, name, value.elems);
    } else {
      if host.docSize(doc') + host.valueSize(value) > SplitThreshold {
        docs' := docs' + [doc'];
        doc' := BaseDocument(obj, |docs'|);
      }
      doc' := SetEntry(doc', key, name, value);
    }
  }

  /** The inner loop of `get_documents`: writes the pairs one field prepared,
      in order. */
  method WriteFieldPairs(host: Host, obj: IndexedObject, docs: seq<Document>, doc: Document,
                         pairs: seq<(Field, Value)>, ghost start: Batch, ghost done: seq<(Field, Value)>)
    returns (docs': seq<Document>, doc': Document)
    requires Batch(docs, doc) == WritePairs(host, obj, start, done)
    ensures Batch(docs', doc') == WritePairs(host, obj, start, done + pairs)
  {
    docs', doc' := docs, doc;
    ghost var written := done;
    assert done + pairs[..0] == done;
    for j := 0 to |pairs|
      invariant written == done + pairs[..j]
      invariant Batch(docs', doc') == WritePairs(host, obj, start, written)
    {
      docs', doc' := WritePreparedPair(host, obj, docs', doc', pairs[j]);
      WritePairsSnoc(host, obj, start, written, pairs[j]);
      assert pairs[..j + 1] == pairs[..j] + [pairs[j]];
      written := written + [pairs[j]];
    }
    assert pairs[..|pairs|] == pairs;
  }

  /** `get_documents`. */
  method GetDocuments(host: Host, obj: IndexedObject) returns (docs: seq<Document>)
    ensures docs == Documents(host, obj)
  {
    var subject := Instance(obj.ref);
    var fields := host.searchFields(obj.ref.model);
    var doc := BaseDocument(obj, 0);
    docs := [];
    for i := 0 to |fields|
      invariant Batch(docs, doc) == WritePairs(host, obj, InitialBatch(obj), FieldPairs(host.getValue, subject, fields[..i]))
    {
      var pairs := PrepareField(host.getValue, subject, fields[i]);
      docs, doc := WriteFieldPairs(host, obj, docs, doc, pairs, InitialBatch(obj), FieldPairs(host.getValue, subject, fields[..i]));
      FieldPairsSnoc(host.getValue, subject, fields, i);
    }
    assert fields[..|fields|] == fields;
    docs := docs + [doc];
  }

  // ---------------------------------------------------------------------------
  // What the fold keeps

  /** The bookkeeping part of a document. */
  function Header(d: Document): Document {
    d.(sections := map[])
  }

  /** Every document carries the bookkeeping attributes of its position. */
  ghost predicate Headed(obj: IndexedObject, b: Batch) {
    && (forall k | 0 <= k < |b.closed| :: Header(b.closed[k]) == BaseDocument(obj, k))
    && Header(b.current) == BaseDocument(obj, |b.closed|)
  }

  /** `b'` only appended documents to those `b` had closed. */
  ghost predicate Extends(b: Batch, b': Batch) {
    |b.closed| <= |b'.closed| && b'.closed[..|b.closed|] == b.closed
  }

  lemma ExtendsTransitive(b: Batch, mid: Batch, b': Batch)
    requires Extends(b, mid) && Extends(mid, b')
    ensures Extends(b, b')
  {
    assert b'.closed[..|b.closed|] == b'.closed[..|mid.closed|][..|b.closed|];
  }

  lemma AppendItemKeepsHeaders(host: Host, obj: IndexedObject, b: Batch, key: string, name: string, v: Value)
    requires Headed(obj, b)
    ensures Headed(obj, AppendItem(host, obj, b, key, name, v))
    ensures Extends(b, AppendItem(host, obj, b, key, name, v))
  {
    assert b.closed[..|b.closed|] == b.closed;
    assert (b.closed + [b.current])[..|b.closed|] == b.closed;
  }

  lemma {:induction false} AppendItemsKeepsHeaders(host: Host, obj: IndexedObject, b: Batch, key: string, name: string, items: seq<Value>)
    requires Headed(obj, b)
    ensures Headed(obj, AppendItems(host, obj, b, key, name, items))
    ensures Extends(b, AppendItems(host, obj, b, key, name, items))
    decreases |items|
  {
    if items == [] {
      assert b.closed[..|b.closed|] == b.closed;
    } else {
      var next := AppendItem(host, obj, b, key, name, items[0]);
      AppendItemKeepsHeaders(host, obj, b, key, name, items[0]);
      AppendItemsKeepsHeaders(host, obj, next, key, name, items[1..]);
      ExtendsTransitive(b, next, AppendItems(host, obj, next, key, name, items[1..]));
    }
  }

  lemma WritePairKeepsHeaders(host: Host, obj: IndexedObject, b: Batch, pair: (Field, Value))
    requires Headed(obj, b)
    ensures Headed(obj, WritePair(host, obj, b, pair))
    ensures Extends(b, WritePair(host, obj, b, pair))
  {
    var key, name := FieldKey(pair.0.definedIn), pair.0.name;
    if pair.1.List? {
      AppendItemsKeepsHeaders(host, obj, b.(current := SetEntry(b.current, key, name, List([]))), key, name, pair.1.elems);
    }
  }

  lemma {:induction false} WritePairsKeepsHeaders(host: Host, obj: IndexedObject, b: Batch, pairs: seq<(Field, Value)>)
    requires Headed(obj, b)
    ensures Headed(obj, WritePairs(host, obj, b, pairs))
    ensures Extends(b, WritePairs(host, obj, b, pairs))
    decreases |pairs|
  {
    if pairs != [] {
      var mid := WritePairs(host, obj, b, pairs[..|pairs| - 1]);
      WritePairsKeepsHeaders(host, obj, b, pairs[..|pairs| - 1]);
      WritePairKeepsHeaders(host, obj, mid, pairs[|pairs| - 1]);
    }
  }

  /** `get_documents` returns at least one document; the k-th has objectID
      suffixed `_k` (none for the first), and all share `wagtail_obj_id`,
      `model`, `locale` and `wagtail_managed == True`. */
  lemma DocumentsHeaders(host: Host, obj: IndexedObject)
    ensures var docs := Documents(host, obj);
      && |docs| >= 1
      && docs[0].objectID == ObjectId(obj.ref)
      && forall k | 0 <= k < |docs| ::
           && docs[k].objectID == SuffixedId(ObjectId(obj.ref), k)
           && docs[k].wagtailManaged
           && docs[k].wagtailObjId == ObjectId(obj.ref)
           && docs[k].locale == LocaleOf(obj)
           && docs[k].model == ModelLabel(obj.ref.model)
  {
    var b := WritePairs(host, obj, InitialBatch(obj), ObjectPairs(host, obj));
    WritePairsKeepsHeaders(host, obj, InitialBatch(obj), ObjectPairs(host, obj));
    var docs := b.closed + [b.current];
    forall k | 0 <= k < |docs| ensures Header(docs[k]) == BaseDocument(obj, k) {
      if k < |b.closed| { assert docs[k] == b.closed[k]; }
    }
  }

  /** No two documents of one object share an objectID, so none replaces
      another in the index. */
  lemma DocumentIdsDistinct(host: Host, obj: IndexedObject)
    ensures var docs := Documents(host, obj);
      forall j, k | 0 <= j < k < |docs| :: docs[j].objectID != docs[k].objectID
  {
    DocumentsHeaders(host, obj);
    var docs := Documents(host, obj);
    forall j, k | 0 <= j < k < |docs| ensures docs[j].objectID != docs[k].objectID {
      SuffixedIdsDistinct(ObjectId(obj.ref), j, k);
    }
  }

  // ---------------------------------------------------------------------------
  // Where values are written

  /** The (sub-object key, attribute name) places the fields may write. */
  function Places(fields: seq<Field>): set<(string, string)> {
    set i | 0 <= i < |fields| :: (FieldKey(fields[i].definedIn), fields[i].name)
  }

  ghost predicate EntriesWithin(d: Document, places: set<(string, string)>) {
    forall key, name | key in d.sections && name in d.sections[key] :: (key, name) in places
  }

  ghost predicate BatchWithin(b: Batch, places: set<(string, string)>) {
    && (forall k | 0 <= k < |b.closed| :: EntriesWithin(b.closed[k], places))
    && EntriesWithin(b.current, places)
  }

  lemma {:induction false} AppendItemsWithin(host: Host, obj: IndexedObject, b: Batch, key: string, name: string,
                                             items: seq<Value>, places: set<(string, string)>)
    requires BatchWithin(b, places) && (key, name) in places
    ensures BatchWithin(AppendItems(host, obj, b, key, name, items), places)
    decreases |items|
  {
    if items != [] {
      AppendItemsWithin(host, obj, AppendItem(host, obj, b, key, name, items[0]), key, name, items[1..], places);
    }
  }

  lemma {:induction false} WritePairsWithin(host: Host, obj: IndexedObject, b: Batch, pairs: seq<(Field, Value)>,
                                            places: set<(string, string)>)
    requires BatchWithin(b, places)
    requires forall i | 0 <= i < |pairs| :: (FieldKey(pairs[i].0.definedIn), pairs[i].0.name) in places
    ensures BatchWithin(WritePairs(host, obj, b, pairs), places)
    decreases |pairs|
  {
    if pairs != [] {
      var mid := WritePairs(host, obj, b, pairs[..|pairs| - 1]);
      WritePairsWithin(host, obj, b, pairs[..|pairs| - 1], places);
      var pair := pairs[|pairs| - 1];
      var key, name := FieldKey(pair.0.definedIn), pair.0.name;
      if pair.1.List? {
        AppendItemsWithin(host, obj, mid.(current := SetEntry(mid.current, key, name, List([]))), key, name, pair.1.elems, places);
      }
    }
  }

  /** Every pair of an object belongs to one of its search fields. */
  lemma ObjectPairsWithinPlaces(host: Host, obj: IndexedObject)
    ensures var pairs := ObjectPairs(host, obj);
      forall i | 0 <= i < |pairs| ::
        (FieldKey(pairs[i].0.definedIn), pairs[i].0.name) in Places(host.searchFields(obj.ref.model))
  {
    var fields := host.searchFields(obj.ref.model);
    var pairs := ObjectPairs(host, obj);
    FieldPairsCover(host.getValue, Instance(obj.ref), fields);
    var pairFields := set j | 0 <= j < |pairs| :: pairs[j].0;
    var fieldSet := set j | 0 <= j < |fields| :: fields[j];
    assert pairFields == fieldSet;
    forall i | 0 <= i < |pairs| ensures (FieldKey(pairs[i].0.definedIn), pairs[i].0.name) in Places(fields) {
      assert pairs[i].0 in pairFields;
      assert pairs[i].0 in fieldSet;
      var f :| 0 <= f < |fields| && fields[f] == pairs[i].0;
    }
  }

  /** Every value is written inside the sub-object of the model that declares
      its field, under the field's name, and nowhere else: every attribute of
      every sub-object of every document is the place of one of the object's
      search fields. */
  lemma DocumentsWriteOnlyDeclaredPlaces(host: Host, obj: IndexedObject)
    ensures var docs := Documents(host, obj);
      forall k | 0 <= k < |docs| :: EntriesWithin(docs[k], Places(host.searchFields(obj.ref.model)))
  {
    var places := Places(host.searchFields(obj.ref.model));
    var pairs := ObjectPairs(host, obj);
    ObjectPairsWithinPlaces(host, obj);
    WritePairsWithin(host, obj, InitialBatch(obj), pairs, places);
    var b := WritePairs(host, obj, InitialBatch(obj), pairs);
    var docs := b.closed + [b.current];
    forall k | 0 <= k < |docs| ensures EntriesWithin(docs[k], places) {
      if k < |b.closed| { assert docs[k] == b.closed[k]; }
    }
  }

  /** A value that is not a list lands at `doc[key][name]` of the current
      document; a new document is opened first exactly when the size check
      fails, and then holds that value alone; otherwise the current document
      keeps all its other entries. */
  lemma WriteValueLands(host: Host, obj: IndexedObject, b: Batch, pair: (Field, Value))
    requires !pair.1.List?
    ensures var key, name := FieldKey(pair.0.definedIn), pair.0.name;
      var b' := WritePair(host, obj, b, pair);
      && b'.current.sections[key][name] == pair.1
      && (Overflows(host, b.current, pair.1) <==> |b'.closed| == |b.closed| + 1)
      && (!Overflows(host, b.current, pair.1) ==> b'.closed == b.closed)
      && (Overflows(host, b.current, pair.1) ==>
            b'.closed == b.closed + [b.current]
            && b'.current == BaseDocument(obj, |b.closed| + 1).(sections := map[key := map[name := pair.1]]))
      && (!Overflows(host, b.current, pair.1) ==> KeepsOtherEntries(b.current, b'.current, key, name))
  {
    var key, name := FieldKey(pair.0.definedIn), pair.0.name;
    if !Overflows(host, b.current, pair.1) {
      SetEntryKeepsOthers(b.current, b.current, key, name, pair.1);
    }
  }

  /** The document at position `i` of a batch, closed or current. */
  function DocumentAt(b: Batch, i: nat): Document
    requires i <= |b.closed|
  {
    if i < |b.closed| then b.closed[i] else b.current
  }

  /** `d'` holds every entry of `d` other than `[key][name]`, unchanged. */
  ghost predicate KeepsOtherEntries(d: Document, d': Document, key: string, name: string) {
    forall k, n | k in d.sections && n in d.sections[k] && (k, n) != (key, name) ::
      k in d'.sections && n in d'.sections[k] && d'.sections[k][n] == d.sections[k][n]
  }

  /** `doc[key][name] = v` touches no other entry. */
  lemma SetEntryKeepsOthers(origin: Document, d: Document, key: string, name: string, v: Value)
    requires KeepsOtherEntries(origin, d, key, name)
    ensures KeepsOtherEntries(origin, SetEntry(d, key, name, v), key, name)
  {
  }

  /** Appending one list element keeps, in the document at position `i`, the
      entries other than the list's own. */
  lemma AppendItemKeepsOthers(host: Host, obj: IndexedObject, b: Batch, key: string, name: string, v: Value,
                              i: nat, origin: Document)
    requires i <= |b.closed| && KeepsOtherEntries(origin, DocumentAt(b, i), key, name)
    ensures var b' := AppendItem(host, obj, b, key, name, v);
      i <= |b'.closed| && KeepsOtherEntries(origin, DocumentAt(b', i), key, name)
  {
    var b' := AppendItem(host, obj, b, key, name, v);
    if Overflows(host, b.current, v) {
      assert b'.closed == b.closed + [b.current];
      assert DocumentAt(b', i) == DocumentAt(b, i);
    } else {
      assert b'.closed == b.closed;
      if i == |b.closed| {
        SetEntryKeepsOthers(origin, b.current, key, name, List(ItemsAt(b.current, key, name) + [v]));
      }
    }
  }

  lemma {:induction false} AppendItemsKeepOthers(host: Host, obj: IndexedObject, b: Batch, key: string, name: string,
                                                 items: seq<Value>, i: nat, origin: Document)
    requires i <= |b.closed| && KeepsOtherEntries(origin, DocumentAt(b, i), key, name)
    ensures var b' := AppendItems(host, obj, b, key, name, items);
      i <= |b'.closed| && KeepsOtherEntries(origin, DocumentAt(b', i), key, name)
    decreases |items|
  {
    if items != [] {
      AppendItemKeepsOthers(host, obj, b, key, name, items[0], i, origin);
      AppendItemsKeepOthers(host, obj, AppendItem(host, obj, b, key, name, items[0]), key, name, items[1..], i, origin);
    }
  }

  /** The documents from the current one onwards, concatenated: their lists at
      `[key][name]`, one after the other. */
  function Gathered(docs: seq<Document>, key: string, name: string): seq<Value>
    decreases |docs|
  {
    if docs == [] then [] else ItemsAt(docs[0], key, name) + Gathered(docs[1..], key, name)
  }

  lemma {:induction false} GatheredConcat(xs: seq<Document>, ys: seq<Document>, key: string, name: string)
    ensures Gathered(xs + ys, key, name) == Gathered(xs, key, name) + Gathered(ys, key, name)
    decreases |xs|
  {
    if xs == [] {
      assert xs + ys == ys;
    } else {
      GatheredConcat(xs[1..], ys, key, name);
      assert (xs + ys)[0] == xs[0];
      assert (xs + ys)[1..] == xs[1..] + ys;
    }
  }

  lemma GatheredSnoc(docs: seq<Document>, d: Document, key: string, name: string)
    ensures Gathered(docs + [d], key, name) == Gathered(docs, key, name) + ItemsAt(d, key, name)
  {
    GatheredConcat(docs, [d], key, name);
    assert [d][1..] == [];
  }

  lemma ItemsAtSetEntry(d: Document, key: string, name: string, items: seq<Value>)
    ensures ItemsAt(SetEntry(d, key, name, List(items)), key, name) == items
  {
  }

  /** Everything gathered at `[key][name]` in a batch: closed documents first,
      then the current one. */
  function AllItems(b: Batch, key: string, name: string): seq<Value> {
    Gathered(b.closed, key, name) + ItemsAt(b.current, key, name)
  }

  /** One appended element: the batch gathers one more element, the new one,
      at the end, and the closed documents stay as they were; the current
      document is closed exactly when the size check fails. */
  lemma AppendItemGathers(host: Host, obj: IndexedObject, mid: Batch, key: string, name: string, v: Value)
    ensures var b' := AppendItem(host, obj, mid, key, name, v);
      && Extends(mid, b')
      && AllItems(b', key, name) == AllItems(mid, key, name) + [v]
      && (Overflows(host, mid.current, v) <==> |b'.closed| == |mid.closed| + 1)
  {
    var b' := AppendItem(host, obj, mid, key, name, v);
    if Overflows(host, mid.current, v) {
      var newDoc := SetEntry(BaseDocument(obj, |mid.closed| + 1), key, name, List([]));
      assert b' == Batch(mid.closed + [mid.current], SetEntry(newDoc, key, name, List([] + [v])));
      GatheredSnoc(mid.closed, mid.current, key, name);
      ItemsAtSetEntry(newDoc, key, name, [] + [v]);
      assert (mid.closed + [mid.current])[..|mid.closed|] == mid.closed;
    } else {
      ItemsAtSetEntry(mid.current, key, name, ItemsAt(mid.current, key, name) + [v]);
      assert mid.closed[..|mid.closed|] == mid.closed;
    }
  }

  lemma SpreadChain(b: Batch, next: Batch, b': Batch, key: string, name: string, v: Value, rest: seq<Value>)
    requires Extends(b, next) && Extends(next, b')
    requires AllItems(next, key, name) == AllItems(b, key, name) + [v]
    requires AllItems(b', key, name) == AllItems(next, key, name) + rest
    ensures Extends(b, b')
    ensures AllItems(b', key, name) == AllItems(b, key, name) + ([v] + rest)
  {
    ExtendsTransitive(b, next, b');
  }

  lemma {:induction false} AppendItemsSpread(host: Host, obj: IndexedObject, b: Batch, key: string, name: string, items: seq<Value>)
    ensures var b' := AppendItems(host, obj, b, key, name, items);
      && Extends(b, b')
      && AllItems(b', key, name) == AllItems(b, key, name) + items
    decreases |items|
  {
    if items == [] {
      assert b.closed[..|b.closed|] == b.closed;
    } else {
      var next := AppendItem(host, obj, b, key, name, items[0]);
      AppendItemGathers(host, obj, b, key, name, items[0]);
      AppendItemsSpread(host, obj, next, key, name, items[1..]);
      SpreadChain(b, next, AppendItems(host, obj, next, key, name, items[1..]), key, name, items[0], items[1..]);
      assert [items[0]] + items[1..] == items;
    }
  }

  /** What a batch gathers beyond the documents closed before `b` comes from
      the documents after them. */
  lemma SpreadFromCurrent(b: Batch, b': Batch, key: string, name: string, items: seq<Value>)
    requires Extends(b, b') && ItemsAt(b.current, key, name) == []
    requires AllItems(b', key, name) == AllItems(b, key, name) + items
    ensures Gathered(b'.closed[|b.closed|..] + [b'.current], key, name) == items
  {
    var rest := b'.closed[|b.closed|..];
    assert b'.closed == b.closed + rest;
    GatheredConcat(b.closed, rest, key, name);
    GatheredSnoc(rest, b'.current, key, name);
    var before := Gathered(b.closed, key, name);
    var after := Gathered(rest + [b'.current], key, name);
    assert Gathered(b'.closed, key, name) == before + Gathered(rest, key, name);
    assert AllItems(b', key, name) == before + after;
    assert AllItems(b, key, name) == before;
    assert after == (before + after)[|before|..];
  }

  /** A list value is spread over consecutive documents, starting with the
      current one: their lists at `[key][name]`, concatenated, are the list
      itself, in order, with no element lost or repeated; the documents
      closed before are left as they were, and the document that was current
      keeps all its other entries. */
  lemma WriteListSpreads(host: Host, obj: IndexedObject, b: Batch, pair: (Field, Value))
    requires pair.1.List?
    ensures var key, name := FieldKey(pair.0.definedIn), pair.0.name;
      var b' := WritePair(host, obj, b, pair);
      && Extends(b, b')
      && Gathered(b'.closed[|b.closed|..] + [b'.current], key, name) == pair.1.elems
      && KeepsOtherEntries(b.current, DocumentAt(b', |b.closed|), key, name)
  {
    var key, name := FieldKey(pair.0.definedIn), pair.0.name;
    var start := b.(current := SetEntry(b.current, key, name, List([])));
    ItemsAtSetEntry(b.current, key, name, []);
    AppendItemsSpread(host, obj, start, key, name, pair.1.elems);
    var b' := AppendItems(host, obj, start, key, name, pair.1.elems);
    assert b' == WritePair(host, obj, b, pair);
    SpreadFromCurrent(start, b', key, name, pair.1.elems);
    SetEntryKeepsOthers(b.current, b.current, key, name, List([]));
    AppendItemsKeepOthers(host, obj, start, key, name, pair.1.elems, |b.closed|, b.current);
  }

  /** A RelatedFields whose value is None is written twice at the same place:
      first None, then the dict of the second pair. When the dict passes the
      size check it overwrites the None in the same document; when it fails
      it, the document holding the None is closed and the dict goes into the
      next one. */
  lemma RelatedNoneEndsAsDict(host: Host, obj: IndexedObject, b: Batch, field: Field, subject: Value)
    requires field.RelatedFields? && host.getValue(subject, field).Null?
    ensures var key, name := FieldKey(field.definedIn), field.name;
      var dict := Dict(DictOf(FieldPairs(host.getValue, Null, field.fields)));
      var first := WritePair(host, obj, b, (field, Null));
      var b' := WritePairs(host, obj, b, PrepareField(host.getValue, subject, field));
      && first.current.sections[key][name] == Null
      && b'.current.sections[key][name] == dict
      && (!Overflows(host, first.current, dict) ==> b'.closed == first.closed)
      && (Overflows(host, first.current, dict) ==> b'.closed == first.closed + [first.current])
  {
    var pairs := PrepareField(host.getValue, subject, field);
    var dict := Dict(DictOf(FieldPairs(host.getValue, Null, field.fields)));
    RelatedNoneYieldsTwoPairs(host.getValue, subject, field);
    var first := WritePair(host, obj, b, (field, Null));
    assert pairs[..1][..0] == [];
    assert pairs[..|pairs| - 1] == pairs[..1];
    assert WritePairs(host, obj, b, pairs[..1]) == first;
    assert WritePairs(host, obj, b, pairs) == WritePair(host, obj, first, (field, dict));
    WriteValueLands(host, obj, b, (field, Null));
    WriteValueLands(host, obj, first, (field, dict));
  }

  // ---------------------------------------------------------------------------
  // What survives to the returned documents

  /** The place a pair is written: `doc[FieldKey(definedIn)][name]`. */
  function PlaceOf(pair: (Field, Value)): (string, string) {
    (FieldKey(pair.0.definedIn), pair.0.name)
  }

  /** `d[key][name]` exists and is `v`. */
  predicate HoldsAt(d: Document, key: string, name: string, v: Value) {
    key in d.sections && name in d.sections[key] && d.sections[key][name] == v
  }

  lemma {:induction false} WritePairsConcat(host: Host, obj: IndexedObject, b: Batch, xs: seq<(Field, Value)>, ys: seq<(Field, Value)>)
    ensures WritePairs(host, obj, b, xs + ys) == WritePairs(host, obj, WritePairs(host, obj, b, xs), ys)
    decreases |ys|
  {
    if ys == [] {
      assert xs + ys == xs;
    } else {
      var init := ys[..|ys| - 1];
      WritePairsConcat(host, obj, b, xs, init);
      assert (xs + ys)[..|xs + ys| - 1] == xs + init;
    }
  }

  /** One pair write keeps, in every document already there, closed or
      current, every entry other than the pair's own place. */
  lemma WritePairKeepsOthers(host: Host, obj: IndexedObject, b: Batch, pair: (Field, Value), p: nat)
    requires p <= |b.closed|
    ensures var b' := WritePair(host, obj, b, pair);
      p <= |b'.closed| && KeepsOtherEntries(DocumentAt(b, p), DocumentAt(b', p), PlaceOf(pair).0, PlaceOf(pair).1)
  {
    var b' := WritePair(host, obj, b, pair);
    if pair.1.List? {
      WriteListSpreads(host, obj, b, pair);
      if p < |b.closed| {
        assert b'.closed[..|b.closed|][p] == b'.closed[p];
      }
    } else {
      WriteValueLands(host, obj, b, pair);
      if Overflows(host, b.current, pair.1) {
        assert DocumentAt(b', p) == DocumentAt(b, p);
      }
    }
  }

  /** An entry stays where it is while the pairs written after it go to other
      places. */
  lemma {:induction false} WritePairsKeepEntry(host: Host, obj: IndexedObject, b: Batch, pairs: seq<(Field, Value)>,
                                               p: nat, key: string, name: string, v: Value)
    requires p <= |b.closed| && HoldsAt(DocumentAt(b, p), key, name, v)
    requires forall j | 0 <= j < |pairs| :: PlaceOf(pairs[j]) != (key, name)
    ensures var b' := WritePairs(host, obj, b, pairs);
      p <= |b'.closed| && HoldsAt(DocumentAt(b', p), key, name, v)
    decreases |pairs|
  {
    if pairs != [] {
      var init := pairs[..|pairs| - 1];
      WritePairsKeepEntry(host, obj, b, init, p, key, name, v);
      WritePairKeepsOthers(host, obj, WritePairs(host, obj, b, init), pairs[|pairs| - 1], p);
    }
  }

  /** Splits the fold at pair `i`: the batch just after pair `i` is written,
      from which the remaining pairs go on. */
  lemma WritePairsAt(host: Host, obj: IndexedObject, b: Batch, pairs: seq<(Field, Value)>, i: nat)
    requires i < |pairs|
    ensures WritePairs(host, obj, b, pairs)
            == WritePairs(host, obj, WritePair(host, obj, WritePairs(host, obj, b, pairs[..i]), pairs[i]), pairs[i + 1..])
  {
    assert pairs[..i + 1][..i] == pairs[..i];
    assert pairs[..i + 1] + pairs[i + 1..] == pairs;
    WritePairsConcat(host, obj, b, pairs[..i + 1], pairs[i + 1..]);
  }

  /** In a batch: a value that is not a list, written at a place that no later
      pair writes again, is still there once all the pairs are written. */
  lemma WrittenValueStays(host: Host, obj: IndexedObject, b: Batch, pairs: seq<(Field, Value)>, i: nat)
    requires i < |pairs| && !pairs[i].1.List?
    requires forall j | i < j < |pairs| :: PlaceOf(pairs[j]) != PlaceOf(pairs[i])
    ensures var bf := WritePairs(host, obj, b, pairs);
      exists k | 0 <= k <= |bf.closed| :: HoldsAt(DocumentAt(bf, k), PlaceOf(pairs[i]).0, PlaceOf(pairs[i]).1, pairs[i].1)
  {
    var key, name := PlaceOf(pairs[i]).0, PlaceOf(pairs[i]).1;
    var mid := WritePairs(host, obj, b, pairs[..i]);
    var bi := WritePair(host, obj, mid, pairs[i]);
    WritePairsAt(host, obj, b, pairs, i);
    WriteValueLands(host, obj, mid, pairs[i]);
    assert HoldsAt(DocumentAt(bi, |bi.closed|), key, name, pairs[i].1);
    var rest := pairs[i + 1..];
    assert forall j | 0 <= j < |rest| :: rest[j] == pairs[i + 1 + j];
    WritePairsKeepEntry(host, obj, bi, rest, |bi.closed|, key, name, pairs[i].1);
  }

  /** The documents of a batch, closed then current, are its documents at
      each position. */
  lemma DocumentsOfBatch(b: Batch, k: nat)
    requires k <= |b.closed|
    ensures k < |b.closed + [b.current]| && (b.closed + [b.current])[k] == DocumentAt(b, k)
  {
  }

  /** A value that is not a list, written at a place that no later pair writes
      again, is in the documents `get_documents` returns, at its place. */
  lemma ValueSurvives(host: Host, obj: IndexedObject, i: nat)
    requires i < |ObjectPairs(host, obj)| && !ObjectPairs(host, obj)[i].1.List?
    requires forall j | i < j < |ObjectPairs(host, obj)| ::
               PlaceOf(ObjectPairs(host, obj)[j]) != PlaceOf(ObjectPairs(host, obj)[i])
    ensures var pair, docs := ObjectPairs(host, obj)[i], Documents(host, obj);
      exists k | 0 <= k < |docs| :: HoldsAt(docs[k], PlaceOf(pair).0, PlaceOf(pair).1, pair.1)
  {
    var pairs := ObjectPairs(host, obj);
    var bf := WritePairs(host, obj, InitialBatch(obj), pairs);
    var docs := Documents(host, obj);
    assert docs == bf.closed + [bf.current];
    WrittenValueStays(host, obj, InitialBatch(obj), pairs, i);
    var k :| 0 <= k <= |bf.closed| && HoldsAt(DocumentAt(bf, k), PlaceOf(pairs[i]).0, PlaceOf(pairs[i]).1, pairs[i].1);
    DocumentsOfBatch(bf, k);
    assert HoldsAt(docs[k], PlaceOf(pairs[i]).0, PlaceOf(pairs[i]).1, pairs[i].1);
  }

  /** After a list is written, the current document holds a list at its place. */
  lemma {:induction false} AppendItemsLeaveList(host: Host, obj: IndexedObject, b: Batch, key: string, name: string, items: seq<Value>)
    requires key in b.current.sections && name in b.current.sections[key] && b.current.sections[key][name].List?
    ensures var b' := AppendItems(host, obj, b, key, name, items);
      key in b'.current.sections && name in b'.current.sections[key] && b'.current.sections[key][name].List?
    decreases |items|
  {
    if items != [] {
      AppendItemsLeaveList(host, obj, AppendItem(host, obj, b, key, name, items[0]), key, name, items[1..]);
    }
  }

  /** A list write leaves a list at its place in the current document. */
  lemma WriteListLeavesList(host: Host, obj: IndexedObject, b: Batch, pair: (Field, Value))
    requires pair.1.List?
    ensures var b', key, name := WritePair(host, obj, b, pair), PlaceOf(pair).0, PlaceOf(pair).1;
      key in b'.current.sections && name in b'.current.sections[key] && b'.current.sections[key][name].List?
  {
    var key, name := PlaceOf(pair).0, PlaceOf(pair).1;
    AppendItemsLeaveList(host, obj, b.(current := SetEntry(b.current, key, name, List([]))), key, name, pair.1.elems);
  }

  /** A pair write only appends to the closed documents. */
  lemma WritePairExtends(host: Host, obj: IndexedObject, b: Batch, pair: (Field, Value))
    ensures Extends(b, WritePair(host, obj, b, pair))
  {
    if pair.1.List? {
      WriteListSpreads(host, obj, b, pair);
    } else {
      WriteValueLands(host, obj, b, pair);
      assert b.closed[..|b.closed|] == b.closed;
      assert (b.closed + [b.current])[..|b.closed|] == b.closed;
    }
  }

  lemma {:induction false} WritePairsExtends(host: Host, obj: IndexedObject, b: Batch, pairs: seq<(Field, Value)>)
    ensures Extends(b, WritePairs(host, obj, b, pairs))
    decreases |pairs|
  {
    if pairs == [] {
      assert b.closed[..|b.closed|] == b.closed;
    } else {
      var mid := WritePairs(host, obj, b, pairs[..|pairs| - 1]);
      WritePairsExtends(host, obj, b, pairs[..|pairs| - 1]);
      WritePairExtends(host, obj, mid, pairs[|pairs| - 1]);
      ExtendsTransitive(b, mid, WritePairs(host, obj, b, pairs));
    }
  }

  /** Documents closed before `bf` from position `s` on, followed by one whose
      list at `[key][name]` is that of `bi.current`, gather what `bi` gathered
      from position `s`. */
  lemma GatheredKept(bi: Batch, bf: Batch, s: nat, key: string, name: string)
    requires s <= |bi.closed| && Extends(bi, bf)
    requires ItemsAt(DocumentAt(bf, |bi.closed|), key, name) == ItemsAt(bi.current, key, name)
    ensures |bi.closed| + 1 <= |bf.closed + [bf.current]|
    ensures Gathered((bf.closed + [bf.current])[s..|bi.closed| + 1], key, name)
            == Gathered(bi.closed[s..] + [bi.current], key, name)
  {
    var docs := bf.closed + [bf.current];
    var e := |bi.closed| + 1;
    var spread := bi.closed[s..];
    DocumentsOfBatch(bf, |bi.closed|);
    assert docs[s..e] == spread + [docs[e - 1]] by {
      assert bf.closed[..|bi.closed|] == bi.closed;
    }
    GatheredSnoc(spread, docs[e - 1], key, name);
    GatheredSnoc(spread, bi.current, key, name);
  }

  /** In a batch: a list written at a place that no later pair writes again
      stays spread over consecutive documents once all the pairs are written. */
  lemma WrittenListStays(host: Host, obj: IndexedObject, b: Batch, pairs: seq<(Field, Value)>, i: nat)
    requires i < |pairs| && pairs[i].1.List?
    requires forall j | i < j < |pairs| :: PlaceOf(pairs[j]) != PlaceOf(pairs[i])
    ensures var bf := WritePairs(host, obj, b, pairs);
      exists s, e | 0 <= s < e <= |bf.closed| + 1 ::
        Gathered((bf.closed + [bf.current])[s..e], PlaceOf(pairs[i]).0, PlaceOf(pairs[i]).1) == pairs[i].1.elems
  {
    var key, name := PlaceOf(pairs[i]).0, PlaceOf(pairs[i]).1;
    var mid := WritePairs(host, obj, b, pairs[..i]);
    var bi := WritePair(host, obj, mid, pairs[i]);
    WritePairsAt(host, obj, b, pairs, i);
    WriteListSpreads(host, obj, mid, pairs[i]);
    WriteListLeavesList(host, obj, mid, pairs[i]);
    var w := bi.current.sections[key][name];
    var rest := pairs[i + 1..];
    assert forall j | 0 <= j < |rest| :: rest[j] == pairs[i + 1 + j];
    WritePairsKeepEntry(host, obj, bi, rest, |bi.closed|, key, name, w);
    WritePairsExtends(host, obj, bi, rest);
    var bf := WritePairs(host, obj, bi, rest);
    GatheredKept(bi, bf, |mid.closed|, key, name);
  }

  /** A list value written at a place that no later pair writes again is in
      the documents `get_documents` returns: spread over consecutive ones,
      whose lists at its place, concatenated, are its elements in order. */
  lemma ListSurvives(host: Host, obj: IndexedObject, i: nat)
    requires i < |ObjectPairs(host, obj)| && ObjectPairs(host, obj)[i].1.List?
    requires forall j | i < j < |ObjectPairs(host, obj)| ::
               PlaceOf(ObjectPairs(host, obj)[j]) != PlaceOf(ObjectPairs(host, obj)[i])
    ensures var pair, docs := ObjectPairs(host, obj)[i], Documents(host, obj);
      exists s, e | 0 <= s < e <= |docs| :: Gathered(docs[s..e], PlaceOf(pair).0, PlaceOf(pair).1) == pair.1.elems
  {
    var pairs := ObjectPairs(host, obj);
    var key, name := PlaceOf(pairs[i]).0, PlaceOf(pairs[i]).1;
    var bf := WritePairs(host, obj, InitialBatch(obj), pairs);
    var docs := Documents(host, obj);
    assert docs == bf.closed + [bf.current];
    WrittenListStays(host, obj, InitialBatch(obj), pairs, i);
    var s, e :| 0 <= s < e <= |bf.closed| + 1 && Gathered(docs[s..e], key, name) == pairs[i].1.elems;
  }
}
