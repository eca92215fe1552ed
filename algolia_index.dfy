/** `AlgoliaIndex`: the index settings sent to Algolia, and the documents sent
    when objects are added or deleted. The calls to the Algolia client are
    recorded in ghost logs instead of being made. */
module AlgoliaIndex {
  import opened Values
  import opened Text
  import opened Indexer
  import opened QueryCompiler

  /** A value of the configured index settings. */
  datatype Setting =
    | NoneSetting
    | BoolSetting(flag: bool)
    | IntSetting(number: int)
    | StrSetting(text: string)
    | ListSetting(items: seq<string>)

  /** `index_settings[...] += [...]` on a value that is not a list. */
  datatype SettingsError = TypeError

  const Faceting: string := "attributesForFaceting"
  const Distinct: string := "attributeForDistinct"

  lemma SettingKeysDiffer()
    ensures Faceting != Distinct
  {
    assert |Faceting| != |Distinct|;
  }

  /** The entries every index facets on: the managed flag (for filtering
      only), the locale and the model. */
  const FixedFacets: seq<string> := [FilterOnly("wagtail_managed"), "locale", "model"]

  /** The faceting entry of an attribute that may be filtered on but whose
      facet values are not counted. */
  function FilterOnly(attribute: string): string {
    "filterOnly(" + attribute + ")"
  }

  /** Whether Python treats a setting as true. */
  predicate SettingTruthy(s: Setting) {
    match s
    case NoneSetting => false
    case BoolSetting(b) => b
    case IntSetting(n) => n != 0
    case StrSetting(t) => t != []
    case ListSetting(items) => items != []
  }

  /** The configured `attributesForFaceting`, or None when it is absent. */
  function BaseFaceting(base: map<string, Setting>): Setting {
    if Faceting in base then base[Faceting] else NoneSetting
  }

  /** The base list is extended in place, and so shared with the configured
      settings, exactly when it is a non-empty list. */
  predicate SharesFaceting(base: map<string, Setting>) {
    BaseFaceting(base).ListSetting? && BaseFaceting(base).items != []
  }

  /** The facet entry of a FilterField declared on model `m`. */
  function FacetEntry(m: ModelName, fieldName: string): string {
    FilterOnly(FieldKey(m) + "." + fieldName)
  }

  /** The entries of one model: its FilterFields declared on the model itself,
      in order; inherited ones are left to the model that declares them. */
  function ModelFacets(m: ModelName, fields: seq<Field>): seq<string>
    decreases |fields|
  {
    if fields == [] then []
    else
      var f := fields[|fields| - 1];
      ModelFacets(m, fields[..|fields| - 1])
      + if f.FilterField? && f.definedIn == m then [FacetEntry(m, f.name)] else []
  }

  /** The entries of all indexed models, model after model. */
  function FilterFacets(models: seq<ModelName>, searchFields: ModelName -> seq<Field>): seq<string>
    decreases |models|
  {
    if models == [] then []
    else
      var m := models[|models| - 1];
      FilterFacets(models[..|models| - 1], searchFields) + ModelFacets(m, searchFields(m))
  }

  /** The settings `update_settings` sends, or the TypeError raised when the
      configured `attributesForFaceting` is true but not a list. */
  function SyncedSettings(base: map<string, Setting>, models: seq<ModelName>, searchFields: ModelName -> seq<Field>)
    : Result<map<string, Setting>, SettingsError>
  {
    var existing := BaseFaceting(base);
    if SettingTruthy(existing) && !existing.ListSetting? then Failure(TypeError)
    else
      var start := if SettingTruthy(existing) then existing.items else [];
      Success(base[Faceting := ListSetting(start + FixedFacets + FilterFacets(models, searchFields))]
                  [Distinct := StrSetting("wagtail_obj_id")])
  }

  /** A facet entry comes from one declaration, and each declaration gives one. */
  lemma {:induction false} ModelFacetsExactly(m: ModelName, fields: seq<Field>)
    ensures forall s :: s in ModelFacets(m, fields) <==>
      exists j | 0 <= j < |fields| :: fields[j].FilterField? && fields[j].definedIn == m && s == FacetEntry(m, fields[j].name)
    decreases |fields|
  {
    if fields != [] {
      var init := fields[..|fields| - 1];
      ModelFacetsExactly(m, init);
      assert forall j | 0 <= j < |init| :: init[j] == fields[j];
    }
  }

  /** `attributesForFaceting` gets an entry exactly for each FilterField that an
      indexed model declares itself. */
  lemma {:induction false} FilterFacetsExactly(models: seq<ModelName>, searchFields: ModelName -> seq<Field>)
    ensures forall s :: s in FilterFacets(models, searchFields) <==>
      exists i, j | 0 <= i < |models| && 0 <= j < |searchFields(models[i])| ::
        && searchFields(models[i])[j].FilterField?
        && searchFields(models[i])[j].definedIn == models[i]
        && s == FacetEntry(models[i], searchFields(models[i])[j].name)
    decreases |models|
  {
    if models != [] {
      var n := |models| - 1;
      var init, m := models[..n], models[n];
      FilterFacetsExactly(init, searchFields);
      ModelFacetsExactly(m, searchFields(m));
      assert forall i | 0 <= i < n :: init[i] == models[i];
      forall s | s in FilterFacets(models, searchFields)
        ensures exists i, j | 0 <= i < |models| && 0 <= j < |searchFields(models[i])| ::
          && searchFields(models[i])[j].FilterField?
          && searchFields(models[i])[j].definedIn == models[i]
          && s == FacetEntry(models[i], searchFields(models[i])[j].name)
      {
        if s !in FilterFacets(init, searchFields) {
          var j :| 0 <= j < |searchFields(m)| && searchFields(m)[j].FilterField?
                   && searchFields(m)[j].definedIn == m && s == FacetEntry(m, searchFields(m)[j].name);
          assert models[n] == m;
        }
      }
    }
  }

  /** `update_settings` succeeds unless the configured `attributesForFaceting`
      is true but not a list. Its faceting list is the configured list (none
      when it is absent or empty), the fixed entries, then the FilterField
      entries; `attributeForDistinct` is `wagtail_obj_id`; every other
      configured key is sent unchanged. */
  lemma SyncedSettingsShape(base: map<string, Setting>, models: seq<ModelName>, searchFields: ModelName -> seq<Field>)
    ensures var r := SyncedSettings(base, models, searchFields);
      && (r.Failure? <==> SettingTruthy(BaseFaceting(base)) && !BaseFaceting(base).ListSetting?)
      && (r.Success? ==>
            && r.value.Keys == base.Keys + {Faceting, Distinct}
            && (forall k | k in base && k != Faceting && k != Distinct :: r.value[k] == base[k])
            && r.value[Distinct] == StrSetting("wagtail_obj_id")
            && r.value[Faceting].ListSetting?
            && var items := r.value[Faceting].items;
               var start := if BaseFaceting(base).ListSetting? then BaseFaceting(base).items else [];
               && |items| == |start| + 3 + |FilterFacets(models, searchFields)|
               && items[..|start|] == start
               && items[|start|..|start| + 3] == FixedFacets
               && items[|start| + 3..] == FilterFacets(models, searchFields))
  {
  }

  /** The attribute the compiled query filters on is declared filterable. */
  lemma QueryFilterIsFaceted(queryString: string, base: map<string, Setting>, models: seq<ModelName>,
                             searchFields: ModelName -> seq<Field>)
    requires SyncedSettings(base, models, searchFields).Success?
    ensures var parts := Split(GetQuery(queryString).1.filters, ':');
      && |parts| == 2
      && FilterOnly(parts[0]) in SyncedSettings(base, models, searchFields).value[Faceting].items
  {
    ManagedFilterParts(queryString);
    SettingKeysDiffer();
    var start := if SettingTruthy(BaseFaceting(base)) then BaseFaceting(base).items else [];
    var items := start + FixedFacets + FilterFacets(models, searchFields);
    assert SyncedSettings(base, models, searchFields).value[Faceting] == ListSetting(items);
    assert items[|start|] == FilterOnly("wagtail_managed");
  }

  /** The distinct attribute carries the same value, the object's id, on all the
      documents one object was split into, and different values on the
      documents of different objects; so Algolia's distinct feature returns
      one hit per object. */
  lemma DistinctAttributeGroupsObjects(host: Host, o1: IndexedObject, o2: IndexedObject, j: nat, k: nat,
                                       base: map<string, Setting>, models: seq<ModelName>,
                                       searchFields: ModelName -> seq<Field>)
    requires SyncedSettings(base, models, searchFields).Success?
    requires WellFormedModel(o1.ref.model) && WellFormedModel(o2.ref.model)
    requires j < |Documents(host, o1)| && k < |Documents(host, o2)|
    ensures var attribute := SyncedSettings(base, models, searchFields).value[Distinct];
      && attribute.StrSetting?
      && RootAttribute(Documents(host, o1)[j], attribute.text) == Some(ObjectId(o1.ref))
      && (RootAttribute(Documents(host, o1)[j], attribute.text) == RootAttribute(Documents(host, o2)[k], attribute.text)
          <==> o1.ref == o2.ref)
  {
    DocumentsHeaders(host, o1);
    DocumentsHeaders(host, o2);
    if ObjectId(o1.ref) == ObjectId(o2.ref) {
      ObjectIdInjective(o1.ref, o2.ref);
    }
  }

  /** The configured list, once extended in place, holds what was sent; a
      second `update_settings` then sends the fixed and FilterField entries
      twice. With no configured list nothing is shared, and the list sent is
      the added entries alone. */
  lemma RepeatedSyncDuplicatesFacets(base: map<string, Setting>, models: seq<ModelName>,
                                     searchFields: ModelName -> seq<Field>)
    requires SyncedSettings(base, models, searchFields).Success?
    ensures var first := SyncedSettings(base, models, searchFields).value;
      var added := FixedFacets + FilterFacets(models, searchFields);
      && (SharesFaceting(base) ==>
            var after := base[Faceting := first[Faceting]];
            && SyncedSettings(after, models, searchFields).Success?
            && SyncedSettings(after, models, searchFields).value[Faceting]
               == ListSetting(BaseFaceting(base).items + added + added))
      && (!SharesFaceting(base) ==> first[Faceting] == ListSetting(added))
  {
    var added := FixedFacets + FilterFacets(models, searchFields);
    if SharesFaceting(base) {
      var after := base[Faceting := SyncedSettings(base, models, searchFields).value[Faceting]];
      assert BaseFaceting(after) == ListSetting(BaseFaceting(base).items + added);
      assert BaseFaceting(base).items + added + added == (BaseFaceting(base).items + added) + added;
    } else {
      assert [] + FixedFacets + FilterFacets(models, searchFields) == added;
    }
  }

  /** Whether an object is the root page, which is never indexed. */
  predicate IsRootPage(obj: IndexedObject) {
    obj.isPage && obj.isRoot
  }

  /** The documents of the objects that are not the root page, given the
      documents of each object, object after object. */
  function Flattened(docsOf: IndexedObject -> seq<Document>, objs: seq<IndexedObject>): seq<Document>
    decreases |objs|
  {
    if objs == [] then []
    else
      var obj := objs[|objs| - 1];
      Flattened(docsOf, objs[..|objs| - 1]) + if IsRootPage(obj) then [] else docsOf(obj)
  }

  /** The documents `add_items` saves. */
  function IndexedDocuments(host: Host, objs: seq<IndexedObject>): seq<Document> {
    Flattened(obj => Documents(host, obj), objs)
  }

  lemma {:induction false} FlattenedExactly(docsOf: IndexedObject -> seq<Document>, objs: seq<IndexedObject>)
    ensures forall d :: d in Flattened(docsOf, objs) <==>
      exists i | 0 <= i < |objs| :: !IsRootPage(objs[i]) && d in docsOf(objs[i])
    decreases |objs|
  {
    if objs != [] {
      var init := objs[..|objs| - 1];
      FlattenedExactly(docsOf, init);
      assert forall i | 0 <= i < |init| :: init[i] == objs[i];
    }
  }

  /** A saved document is one of an object that is not the root page, and every
      document of such an object is saved. */
  lemma IndexedDocumentsExactly(host: Host, objs: seq<IndexedObject>)
    ensures forall d :: d in IndexedDocuments(host, objs) <==>
      exists i | 0 <= i < |objs| :: !IsRootPage(objs[i]) && d in Documents(host, objs[i])
  {
    FlattenedExactly(obj => Documents(host, obj), objs);
  }

  /** `delete_item` deletes the unsuffixed id only: that is the first document
      of the object, and none of the documents it was split into. */
  lemma DeleteMissesSplitDocuments(host: Host, obj: IndexedObject)
    ensures var docs := Documents(host, obj);
      && docs[0].objectID == ObjectId(obj.ref)
      && forall k | 1 <= k < |docs| :: docs[k].objectID != ObjectId(obj.ref)
  {
    DocumentsHeaders(host, obj);
    var docs := Documents(host, obj);
    forall k | 1 <= k < |docs| ensures docs[k].objectID != ObjectId(obj.ref) {
      assert |SuffixedId(ObjectId(obj.ref), k)| > |ObjectId(obj.ref)|;
    }
  }

  /** The loop over the filterable fields of one model in `update_settings`. */
  method AppendModelFacets(facets: seq<string>, m: ModelName, fields: seq<Field>) returns (facets': seq<string>)
    ensures facets' == facets + ModelFacets(m, fields)
  {
    facets' := facets;
    for j := 0 to |fields|
      invariant facets' == facets + ModelFacets(m, fields[..j])
    {
      var f := fields[j];
      if f.FilterField? && f.definedIn == m {
        facets' := facets' + [FacetEntry(m, f.name)];
      }
      assert fields[..j + 1][..j] == fields[..j];
    }
    assert fields[..|fields|] == fields;
  }

  /** The loop over the indexed models of `update_settings`, appending to the
      faceting list. */
  method AppendFilterFacets(facets: seq<string>, models: seq<ModelName>, searchFields: ModelName -> seq<Field>)
    returns (facets': seq<string>)
    ensures facets' == facets + FilterFacets(models, searchFields)
  {
    facets' := facets;
    for i := 0 to |models|
      invariant facets' == facets + FilterFacets(models[..i], searchFields)
    {
      var m := models[i];
      facets' := AppendModelFacets(facets', m, searchFields(m));
      assert models[..i + 1][..i] == models[..i];
    }
    assert models[..|models|] == models;
  }

  /** The loop of `add_items`. */
  method CollectDocuments(host: Host, objs: seq<IndexedObject>) returns (batch: seq<Document>)
    ensures batch == IndexedDocuments(host, objs)
  {
    batch := [];
    for i := 0 to |objs|
      invariant batch == IndexedDocuments(host, objs[..i])
    {
      var obj := objs[i];
      if !obj.isPage || !obj.isRoot {
        var docs := GetDocuments(host, obj);
        batch := batch + docs;
      }
      IndexedDocumentsSnoc(host, objs, i);
    }
    assert objs[..|objs|] == objs;
  }

  lemma IndexedDocumentsSnoc(host: Host, objs: seq<IndexedObject>, i: nat)
    requires i < |objs|
    ensures IndexedDocuments(host, objs[..i + 1])
            == IndexedDocuments(host, objs[..i]) + if IsRootPage(objs[i]) then [] else Documents(host, objs[i])
  {
    assert objs[..i + 1][..i] == objs[..i];
  }

  class Index {
    const name: string
    const host: Host
    /** `get_indexed_models()`, in order. */
    const indexedModels: seq<ModelName>
    /** The configured settings; only a shared faceting list changes them. */
    var indexSettings: map<string, Setting>

    /** The calls `set_settings`, `save_objects` and `delete_object` made. */
    ghost var sentSettings: seq<map<string, Setting>>
    ghost var savedBatches: seq<seq<Document>>
    ghost var deletedIds: seq<string>

    constructor(name: string, host: Host, indexedModels: seq<ModelName>, indexSettings: map<string, Setting>)
      ensures this.name == name && this.host == host && this.indexedModels == indexedModels
      ensures this.indexSettings == indexSettings
      ensures sentSettings == [] && savedBatches == [] && deletedIds == []
    {
      this.name := name;
      this.host := host;
      this.indexedModels := indexedModels;
      this.indexSettings := indexSettings;
      sentSettings := [];
      savedBatches := [];
      deletedIds := [];
    }

    /** `update_settings`. */
    method UpdateSettings() returns (r: Result<map<string, Setting>, SettingsError>)
      modifies this
      ensures r == SyncedSettings(old(indexSettings), indexedModels, host.searchFields)
      ensures r.Success? ==> sentSettings == old(sentSettings) + [r.value]
      ensures r.Failure? ==> sentSettings == old(sentSettings)
      ensures indexSettings == if r.Success? && SharesFaceting(old(indexSettings))
                               then old(indexSettings)[Faceting := r.value[Faceting]]
                               else old(indexSettings)
      ensures savedBatches == old(savedBatches) && deletedIds == old(deletedIds)
    {
      var settings := indexSettings;
      var existing := if Faceting in settings then settings[Faceting] else NoneSetting;
      var facets: seq<string>;
      if !SettingTruthy(existing) {
        facets := [];
      } else if existing.ListSetting? {
        facets := existing.items;
      } else {
        return Failure(TypeError);
      }
      facets := facets + FixedFacets;
      facets := AppendFilterFacets(facets, indexedModels, host.searchFields);
      settings := settings[Faceting := ListSetting(facets)][Distinct := StrSetting("wagtail_obj_id")];
      sentSettings := sentSettings + [settings];
      if SharesFaceting(indexSettings) {
        indexSettings := indexSettings[Faceting := ListSetting(facets)];
      }
      return Success(settings);
    }

    /** `add_items`: the documents of every object but the root page, saved in
      one call. */
    method AddItems(objs: seq<IndexedObject>) returns (batch: seq<Document>)
      modifies this
      ensures batch == IndexedDocuments(host, objs)
      ensures savedBatches == old(savedBatches) + [batch]
      ensures indexSettings == old(indexSettings) && sentSettings == old(sentSettings) && deletedIds == old(deletedIds)
    {
      batch := CollectDocuments(host, objs);
      savedBatches := savedBatches + [batch];
    }

    /** `add_item`: the object's documents, or none for the root page. */
    method AddItem(obj: IndexedObject) returns (batch: seq<Document>)
      modifies this
      ensures batch == if IsRootPage(obj) then [] else Documents(host, obj)
      ensures savedBatches == old(savedBatches) + [batch]
      ensures indexSettings == old(indexSettings) && sentSettings == old(sentSettings) && deletedIds == old(deletedIds)
    {
      batch := AddItems([obj]);
      IndexedDocumentsSnoc(host, [obj], 0);
      assert [obj][..0] == [] && [obj][..1] == [obj];
    }

    /** `delete_item`: deletes the record with the object's unsuffixed id. */
    method DeleteItem(obj: IndexedObject) returns (objectId: string)
      modifies this
      ensures objectId == ObjectId(obj.ref)
      ensures deletedIds == old(deletedIds) + [objectId]
      ensures indexSettings == old(indexSettings) && sentSettings == old(sentSettings) && savedBatches == old(savedBatches)
    {
      objectId := ObjectId(obj.ref);
      deletedIds := deletedIds + [objectId];
    }
  }

  /** Two `update_settings` calls in a row: the second sends the same settings
      unless the configured faceting list was a non-empty list, in which case
      it sends the added entries a second time. */
  method SyncTwice(index: Index) returns (first: Result<map<string, Setting>, SettingsError>,
                                          second: Result<map<string, Setting>, SettingsError>)
    modifies index
    ensures first == SyncedSettings(old(index.indexSettings), index.indexedModels, index.host.searchFields)
    ensures first.Success? && !SharesFaceting(old(index.indexSettings)) ==> second == first
    ensures first.Success? && SharesFaceting(old(index.indexSettings)) ==>
              second.Success? && Faceting in second.value
              && second.value[Faceting]
                 == ListSetting(BaseFaceting(old(index.indexSettings)).items
                                + FixedFacets + FilterFacets(index.indexedModels, index.host.searchFields)
                                + FixedFacets + FilterFacets(index.indexedModels, index.host.searchFields))
  {
    ghost var base := index.indexSettings;
    first := index.UpdateSettings();
    second := index.UpdateSettings();
    if first.Success? {
      RepeatedSyncDuplicatesFacets(base, index.indexedModels, index.host.searchFields);
    }
  }
}
