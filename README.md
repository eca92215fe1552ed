# wagtail-algolia-search backend, modelled in Dafny

This project models the search backend that connects Wagtail's search framework to an Algolia index (`wagtail_algolia_search/backend.py`):

- **`ObjectIndexer`** turns a model instance into Algolia documents.
  - Each document carries a bookkeeping header: `objectID`, `wagtail_managed`, `wagtail_obj_id`, `locale` and `model`.
  - Each search-field value is written under `doc[<app_label>__<ObjectName>][field_name]`, where the model is the one that declares the field.
  - `prepare_field` normalises FilterField values to primary keys and turns RelatedFields into nested dicts.
  - `get_documents` opens a new document, whose objectID is suffixed `_k`, whenever the next write would take the current one past 9500 characters.
- **`AlgoliaSearchQueryCompiler.get_query`** builds the fixed search parameters.
- **`AlgoliaSearchResults`** sends the search to the index, keeps the hits whose model is a subclass of the searched model, and re-selects the queryset rows in hit order. It caches the result and its count, and computes facet counts.
- **`AlgoliaIndex`** does three things:
  - `update_settings` builds `attributesForFaceting` and `attributeForDistinct`.
  - `add_items` saves the documents of every object except the root page.
  - `delete_item` deletes an object's id.

## Structure

| module | file | models |
|---|---|---|
| `Values` | `values.dfy` | model references, field values (None, scalars, instances, managers, querysets, lists, tuples, callables, dicts), field descriptors, indexed objects, documents |
| `Text` | `text.dfy` | `str.split` on one character, `join`, and the decimal rendering of a suffix |
| `Fields` | `fields.dfy` | `prepare_field` as a recursive function returning the sequence of pairs it yields |
| `Indexer` | `indexer.dfy` | object ids, field keys and the base document. `get_documents` is a fold over the prepared pairs (the specification) and a method with the source's nested loops, proved equal to it |
| `QueryCompiler` | `query.dfy` | `get_query`, and what Algolia's filter and retrieval do with a document |
| `SearchResults` | `results.dfy` | the hit loop, the re-selection in hit order, facet counts, and the class `AlgoliaSearchResults` with its three caches |
| `AlgoliaIndex` | `algolia_index.dfy` | the settings `update_settings` sends, the batch `add_items` saves, the id `delete_item` deletes, and the class `Index` |

The framework's side of the code is passed in as functions:

- `Host.searchFields` stands for `get_search_fields` together with `get_definition_model` (each field records its declaring model).
- `Host.getValue` stands for `field.get_value`.
- `Host.docSize` and `Host.valueSize` stand for the lengths of `str(doc)` and `str(value)`.
- `Registry.lookup` stands for `apps.get_model`, and `Registry.isSubclass` for `issubclass`.
- The index's answer to a search is the function `respond`.

The Algolia client calls are not made. `set_settings`, `save_objects`, `delete_object` and `index.search` are recorded in ghost logs on the objects that make them.

## Model

| member | source | states |
|---|---|---|
| `Text.SplitJoin` | wagtail_algolia_search/backend.py:244 | joining the pieces of `split(sep)` gives back the string, and no piece contains the separator |
| `Text.SplitWithoutSeparator` | wagtail_algolia_search/backend.py:244 | a string without the separator splits into itself alone |
| `Text.SplitAtFirstSeparator` | wagtail_algolia_search/backend.py:244 | the piece before the first separator comes first, then the split of the rest |
| `Text.SplitAtSeparator` | wagtail_algolia_search/backend.py:244 | a string holding the separator splits into at least two pieces |
| `Text.JoinSplit` | wagtail_algolia_search/backend.py:244 | pieces without the separator, once joined, split back into the same pieces |
| `Text.DecimalStringInjective` | wagtail_algolia_search/backend.py:53 | different suffixes render as different decimal strings |
| `Fields.PrepareField` | wagtail_algolia_search/backend.py:97-194 | every pair names the field itself; one pair, except two for a RelatedFields whose value is None. A search or autocomplete field yields its raw value. A FilterField yields its normalised value. A RelatedFields yields None first when its value is None, and ends with a list for a manager or a dict otherwise |
| `Fields.FilterValueIdempotent` | wagtail_algolia_search/backend.py:104-125 | the FilterField value itself is no instance, manager, queryset or tuple, a list it produces holds no instance, and normalising it again changes nothing |
| `Fields.FilterValueKeepsOrder` | wagtail_algolia_search/backend.py:104-125 | a manager or queryset becomes its keys in order; a list or tuple keeps its length and order, with instances replaced by their keys; an instance becomes its key; anything else is unchanged |
| `Fields.DictOfKeys` | wagtail_algolia_search/backend.py:157-164 | the keys of the dict comprehension are exactly the names of the pairs |
| `Fields.DictOfLastWins` | wagtail_algolia_search/backend.py:186-193 | under a name, the dict holds the value of the last pair with that name |
| `Fields.FieldPairsCover` | wagtail_algolia_search/backend.py:76-77 | the pairs of a field list belong to exactly the fields of the list |
| `Fields.SubDocumentKeys` | wagtail_algolia_search/backend.py:185-194 | a related object's dict has exactly the sub-field names as keys |
| `Fields.RelatedManagerOneDictPerRow` | wagtail_algolia_search/backend.py:134-167 | a manager yields one pair: a list with one dict per related row, in `.all()` order, each keyed by the sub-field names |
| `Fields.RelatedObjectOneDict` | wagtail_algolia_search/backend.py:169-194 | a RelatedFields over anything but a manager ends with one dict read off the related object, called first when it is callable, keyed exactly by the sub-field names |
| `Fields.RelatedNoneYieldsTwoPairs` | wagtail_algolia_search/backend.py:127-194 | a None value yields `(field, None)` and then the dict read off None |
| `Indexer.ObjectIdSplits` | wagtail_algolia_search/backend.py:39-41 | for a key without `:`, an object id splits on `:` into label and key, and the label splits on `.` into app label and class name |
| `Indexer.ModelLabelSplits` | wagtail_algolia_search/backend.py:39-41 | a model label holds no `:` and splits on `.` into app label and class name |
| `Indexer.ObjectIdInjective` | wagtail_algolia_search/backend.py:39-41 | two objects of well-formed models with the same id are the same (model, key), whatever their keys hold, since the first `:` of an id ends its label |
| `Indexer.FieldKeyIsNotRootKey` | wagtail_algolia_search/backend.py:43-47 | a field key never coincides with a root-level bookkeeping key |
| `Indexer.SuffixedIdsDistinct` | wagtail_algolia_search/backend.py:49-53 | different suffixes give different objectIDs, suffix 0 meaning none |
| `Indexer.AppendListItems` | wagtail_algolia_search/backend.py:81-86 | the loop over a list's elements gives the batch the fold specifies |
| `Indexer.AppendListItem` | wagtail_algolia_search/backend.py:81-86 | one element: the current document is closed and a new one opened with an empty list exactly when the size check fails, then the element is appended, as the fold specifies |
| `Indexer.WritePreparedPair` | wagtail_algolia_search/backend.py:78-91 | writing one pair gives the batch the fold specifies |
| `Indexer.WriteFieldPairs` | wagtail_algolia_search/backend.py:77-91 | the inner loop extends the fold by the pairs of one field |
| `Indexer.GetDocuments` | wagtail_algolia_search/backend.py:70-95 | the nested loops return the documents of the fold over all prepared pairs |
| `Indexer.AppendItemKeepsHeaders` | wagtail_algolia_search/backend.py:82-86 | appending an element keeps each document's header equal to the base document for its position, and leaves closed documents as they were |
| `Indexer.AppendItemsKeepsHeaders` | wagtail_algolia_search/backend.py:79-86 | the same for a whole list |
| `Indexer.WritePairKeepsHeaders` | wagtail_algolia_search/backend.py:78-91 | the same for any pair |
| `Indexer.WritePairsKeepsHeaders` | wagtail_algolia_search/backend.py:76-91 | the same for any sequence of pairs |
| `Indexer.DocumentsHeaders` | wagtail_algolia_search/backend.py:49-95 | at least one document; the k-th has objectID suffixed `_k` (none for the first); all share `wagtail_managed == True`, `wagtail_obj_id`, `locale` and `model` |
| `Indexer.DocumentIdsDistinct` | wagtail_algolia_search/backend.py:82-95 | the documents of one object have pairwise different objectIDs |
| `Indexer.AppendItemsWithin` | wagtail_algolia_search/backend.py:79-86 | appending list elements writes only under the field's own key and name |
| `Indexer.WritePairsWithin` | wagtail_algolia_search/backend.py:76-91 | writing pairs writes only at the places of their fields |
| `Indexer.ObjectPairsWithinPlaces` | wagtail_algolia_search/backend.py:76-77 | every prepared pair belongs to a search field of the object's model |
| `Indexer.DocumentsWriteOnlyDeclaredPlaces` | wagtail_algolia_search/backend.py:76-91 | every entry of every document sits at `[<declaring model key>][<field name>]` of one of the object's search fields |
| `Indexer.WriteValueLands` | wagtail_algolia_search/backend.py:87-91 | a non-list value lands at `doc[key][name]`; a new document, holding only that value, is opened exactly when the size check fails; otherwise every other entry of the current document is kept |
| `Indexer.SetEntryKeepsOthers` | wagtail_algolia_search/backend.py:91 | assigning `doc[key][name]` keeps every other entry |
| `Indexer.AppendItemKeepsOthers` | wagtail_algolia_search/backend.py:82-86 | appending one list element keeps the other entries of every document of the batch |
| `Indexer.AppendItemsKeepOthers` | wagtail_algolia_search/backend.py:79-86 | the same for a whole list |
| `Indexer.AppendItemGathers` | wagtail_algolia_search/backend.py:81-86 | one list element is appended at the end of what the batch gathers, and a document is closed exactly when the size check fails |
| `Indexer.AppendItemsSpread` | wagtail_algolia_search/backend.py:79-86 | a list's elements are appended, in order, to what the batch gathers |
| `Indexer.WriteListSpreads` | wagtail_algolia_search/backend.py:79-86 | a list value is spread over consecutive documents from the current one on, whose lists concatenate to it, in order, with nothing lost or repeated; the document that was current keeps all its other entries |
| `Indexer.RelatedNoneEndsAsDict` | wagtail_algolia_search/backend.py:130-194 | for a RelatedFields that is None, None is written first and then the dict at the same place: if the dict passes the size check it overwrites the None in the same document; if not, the document holding the None is closed and the dict goes into a new one |
| `Indexer.WritePairKeepsOthers` | wagtail_algolia_search/backend.py:78-93 | writing one prepared pair keeps, in every document already closed or current, every entry other than the pair's own `doc[key][name]` |
| `Indexer.WritePairsKeepEntry` | wagtail_algolia_search/backend.py:76-93 | an entry stays, in the same document, while the pairs written after it go to other places |
| `Indexer.WritePairsExtends` | wagtail_algolia_search/backend.py:76-93 | the loop only appends to `docs`: documents once closed never change |
| `Indexer.WriteListLeavesList` | wagtail_algolia_search/backend.py:79-85 | after a list value is written, the current document holds a list at its place |
| `Indexer.WrittenValueStays` | wagtail_algolia_search/backend.py:76-93 | a value that is not a list, at a place that no later pair writes, is still at that place in some document once the loop ends |
| `Indexer.WrittenListStays` | wagtail_algolia_search/backend.py:76-93 | a list value, at a place that no later pair writes, is still spread over consecutive documents once the loop ends, their lists concatenating to its elements in order |
| `Indexer.ValueSurvives` | wagtail_algolia_search/backend.py:76-95 | a prepared value that is not a list, at a place no later pair writes, is in a document `get_documents` returns, at `doc[key][name]` |
| `Indexer.ListSurvives` | wagtail_algolia_search/backend.py:76-95 | a prepared list value, at a place no later pair writes, is in the documents `get_documents` returns, spread over consecutive ones whose lists at its place concatenate to its elements in order |
| `QueryCompiler.ManagedFilterAdmitsManagedOnly` | wagtail_algolia_search/backend.py:202-210 | the compiled filter admits a document if and only if it is flagged `wagtail_managed`, whatever the query string |
| `QueryCompiler.ManagedFilterParts` | wagtail_algolia_search/backend.py:206 | the filter splits into the attribute `wagtail_managed` and the value `true` |
| `SearchResults.KeptPksFailurePersists` | wagtail_algolia_search/backend.py:242-251 | an uncaught exception ends the hit loop: a failing prefix decides the result |
| `SearchResults.KeptPksOutcome` | wagtail_algolia_search/backend.py:242-251 | the loop fails if and only if some hit raises, and then with the first exception; otherwise a key is kept if and only if some hit keeps it |
| `SearchResults.CollectPks` | wagtail_algolia_search/backend.py:240-251 | the loop with its early exit returns the keys or the error the fold specifies |
| `SearchResults.SplitByPkMembers` | wagtail_algolia_search/backend.py:253-255 | the rows with a key and the rows without it partition the rows |
| `SearchResults.SplitByPkDistinct` | wagtail_algolia_search/backend.py:253-255 | with distinct keys, at most one row has a given key, and the others keep distinct keys |
| `SearchResults.ReorderMembers` | wagtail_algolia_search/backend.py:253-255 | a row is in the result if and only if it is a queryset row whose key was kept |
| `SearchResults.ReorderFollowsHits` | wagtail_algolia_search/backend.py:253-255 | result rows have kept keys, appear once each, and are ordered by the first position of their key among the kept keys |
| `SearchResults.ClassifyObjectId` | wagtail_algolia_search/backend.py:244-247 | a hit carrying the id of an object whose key has no `:` keeps its key for a subclass, is skipped for another known model, and raises LookupError for an unknown one |
| `SearchResults.ColonKeyHitSkipped` | wagtail_algolia_search/backend.py:244-251 | a hit carrying the id of an object whose key holds `:` is skipped |
| `SearchResults.ColonKeyDocumentNeverFound` | wagtail_algolia_search/backend.py:41-251 | every document of an object whose key holds `:` passes the filter, but its hit is skipped: the object is indexed and never found |
| `SearchResults.ForeignIdSkipped` | wagtail_algolia_search/backend.py:244-251 | a hit whose id has no `:` is skipped |
| `SearchResults.ManagedDocumentFound` | wagtail_algolia_search/backend.py:202-247 | a managed document with the id of an object whose key has no `:` passes the filter, and what is retrieved from it leads the hit loop back to the object's key |
| `SearchResults.IndexedDocumentFound` | wagtail_algolia_search/backend.py:49-247 | for an object whose key has no `:`, every document `get_documents` writes passes the compiled filter and, through `wagtail_obj_id`, yields its object's key |
| `SearchResults.ObjectIdOnlyHitRaises` | wagtail_algolia_search/backend.py:244 | a hit that carries only `objectID` raises KeyError in the hit loop |
| `SearchResults.FacetCountsPerValue` | wagtail_algolia_search/backend.py:285-291 | each value is counted once per result row that has it, and the counts add up to the number of rows |
| `SearchResults.AlgoliaSearchResults.constructor` | wagtail_algolia_search/backend.py:216-220 | the caches start empty and no search has been sent |
| `SearchResults.AlgoliaSearchResults.DoSearch` | wagtail_algolia_search/backend.py:230-260 | a non-empty cached result is returned with no search sent; otherwise exactly one search is sent, and on success the result, the rows and the count are cached; an exception leaves the caches alone |
| `SearchResults.AlgoliaSearchResults.DoCount` | wagtail_algolia_search/backend.py:262-267 | a cached count is returned with no search sent; otherwise one search, then its count or its exception |
| `SearchResults.AlgoliaSearchResults.Facet` | wagtail_algolia_search/backend.py:269-291 | a field that is not filterable raises FilterFieldError with the source's message and the field name, touching nothing; otherwise the facet counts of the search result, or its exception, with the caches filled as by the search |
| `SearchResults.CountTwice` | wagtail_algolia_search/backend.py:262-267 | after a successful count, a second count answers the same and at most one search was sent in all |
| `SearchResults.FacetThenCount` | wagtail_algolia_search/backend.py:262-291 | after a successful facet, a count answers the number of rows counted, and at most one search was sent in all |
| `SearchResults.SearchTwiceWhenEmpty` | wagtail_algolia_search/backend.py:230-232 | an empty result is not memoised: two searches in a row both go to the index |
| `AlgoliaIndex.ModelFacetsExactly` | wagtail_algolia_search/backend.py:336-340 | a model contributes one entry for each FilterField it declares itself, and no other |
| `AlgoliaIndex.FilterFacetsExactly` | wagtail_algolia_search/backend.py:335-340 | the FilterField entries are exactly those of the fields an indexed model declares itself |
| `AlgoliaIndex.AppendModelFacets` | wagtail_algolia_search/backend.py:336-340 | the inner loop appends the model's entries |
| `AlgoliaIndex.AppendFilterFacets` | wagtail_algolia_search/backend.py:335-340 | the outer loop appends the entries of every indexed model, model after model |
| `AlgoliaIndex.SyncedSettingsShape` | wagtail_algolia_search/backend.py:313-329 | TypeError if and only if the configured faceting value is true but not a list. Otherwise the faceting list is the configured list (or none), the three fixed entries, then the FilterField entries; `attributeForDistinct` is `wagtail_obj_id`; other keys are unchanged |
| `AlgoliaIndex.QueryFilterIsFaceted` | wagtail_algolia_search/backend.py:313-321 | the attribute the compiled query filters on is declared `filterOnly` in the settings sent |
| `AlgoliaIndex.DistinctAttributeGroupsObjects` | wagtail_algolia_search/backend.py:329 | the distinct attribute has the same value on all documents of one object, and different values for different objects |
| `AlgoliaIndex.RepeatedSyncDuplicatesFacets` | wagtail_algolia_search/backend.py:313-317 | a non-empty configured list is extended in place, so a second sync sends the added entries twice; otherwise the list sent is the added entries alone |
| `AlgoliaIndex.FlattenedExactly` | wagtail_algolia_search/backend.py:352-355 | the batch holds a document if and only if it belongs to an object that is not the root page |
| `AlgoliaIndex.IndexedDocumentsExactly` | wagtail_algolia_search/backend.py:351-357 | `add_items` saves a document if and only if `get_documents` writes it for an object that is not the root page |
| `AlgoliaIndex.CollectDocuments` | wagtail_algolia_search/backend.py:352-355 | the loop concatenates the documents of the objects in order, skipping the root page |
| `AlgoliaIndex.DeleteMissesSplitDocuments` | wagtail_algolia_search/backend.py:359-362 | the deleted id is the first document's objectID, and that of none of the split documents |
| `AlgoliaIndex.Index.constructor` | wagtail_algolia_search/backend.py:295-305 | the index keeps its name and settings, and nothing has been sent |
| `AlgoliaIndex.Index.UpdateSettings` | wagtail_algolia_search/backend.py:307-342 | the settings sent are the synced settings. On TypeError nothing is sent. The configured faceting list changes to the sent one exactly when it was a non-empty list |
| `AlgoliaIndex.SyncTwice` | wagtail_algolia_search/backend.py:307-342 | a second `update_settings` sends the same settings as the first, unless the configured faceting list was non-empty; then it sends the added entries a second time |
| `AlgoliaIndex.Index.AddItems` | wagtail_algolia_search/backend.py:351-357 | one batch is saved: the documents of the objects, skipping the root page |
| `AlgoliaIndex.Index.AddItem` | wagtail_algolia_search/backend.py:348-349 | the object's documents are saved in one batch, none for the root page |
| `AlgoliaIndex.Index.DeleteItem` | wagtail_algolia_search/backend.py:359-362 | the unsuffixed object id is deleted, and nothing else changes |

## Behaviour of the code that its tests or comments do not lead one to expect

The model follows the code in each of these cases:

- **Retrieved attribute.** The compiled query retrieves `wagtail_obj_id` (line 207), and the hit loop reads it (line 244). A hit that carries only `objectID`, as the backend's own test data does, makes the hit loop raise KeyError. See `SearchResults.ObjectIdOnlyHitRaises`.
- **The settings test omits `attributeForDistinct`.** The code always sets it (line 329). See `AlgoliaIndex.SyncedSettingsShape`.
- **A RelatedFields that is None is not terminal.** It yields `(field, None)` and then goes on to the single-object branch (lines 130-194), which reads the sub-fields off None. If reading them returns values, the dict is written after the None at the same place. When the dict passes the size check it overwrites the None; when it does not, the document holding the None is closed as it stands and the dict goes into the next document, so the index holds both. With Wagtail's own `get_value` the read most likely raises instead, and the object is not indexed at all. See `Fields.RelatedNoneYieldsTwoPairs` and `Indexer.RelatedNoneEndsAsDict`.
- **Only ValueError is caught** (line 248). A model label that `apps.get_model` does not know raises LookupError, which ends the search. A missing `wagtail_obj_id` raises KeyError, which ends it too. See `SearchResults.ClassifyObjectId` and `SearchResults.KeptPksOutcome`.
- **Empty results are not memoised.** The cache test is a truthiness test (line 231), so an empty result sends a new search every time. The count cache is set all the same, so `_do_count` does not search again. See `SearchResults.SearchTwiceWhenEmpty` and `SearchResults.CountTwice`.
- **The settings copy is shallow** (line 313). A non-empty configured `attributesForFaceting` list is extended in place, so each later `update_settings` appends the entries again. See `AlgoliaIndex.RepeatedSyncDuplicatesFacets` and `AlgoliaIndex.Index.UpdateSettings`.
- **A key holding `:` is never found.** `get_object_id` (line 41) writes a string key as it is. A key such as `a:b` makes the id split into three parts at line 244, the unpacking raises ValueError, and every hit for the object is skipped. The object is indexed but never returned by a search. See `SearchResults.ColonKeyDocumentNeverFound`.
- **`delete_item` deletes only the unsuffixed id** (line 360). The documents suffixed `_1`, `_2`, … stay in the index. See `AlgoliaIndex.DeleteMissesSplitDocuments`.
- **Two tests are stubs.** `test_field_types` and `test_faceting` only fail, so they give no evidence about field preparation or faceting. The model states these from the code alone.

## Left out

- The Algolia client is not modelled: `SearchClient.create`, `init_index`, `set_settings`, `save_objects`, `delete_object` and `index.search` are network I/O.
  - The calls made are recorded in ghost logs.
  - What a search answers is the function `respond`.
  - `search_index` (lines 222-228) is the call to `respond` inside `DoSearch`.
- The Django ORM is not modelled: `filter(pk__in=…)`, `Case`/`When` ordering, `values_list`, `values().annotate(Count).order_by("-count")`.
  - The queryset is a sequence of rows already filtered by the host.
  - Keys are compared as strings.
  - The re-selection is the sequence function `Reorder`.
- `SearchResults.FacetCountsPerValue` and `SearchResults.AlgoliaSearchResults.Facet` give the facet counts as a multiset of values. The order by descending count, with ties in an order the database chooses, is not modelled.
- `apps.get_model` and `issubclass` are not modelled; they are the functions of a `Registry`. `get_model`'s own check that the label has one `.` is modelled, as a skipped hit.
- These framework functions are abstract inputs: `get_indexed_models`, `get_search_fields`, `get_filterable_search_fields`, `get_definition_model` and `field.get_value`.
  - The filterable fields of a model are its FilterFields in `get_search_fields` order.
  - `_get_filterable_field` is the set of filterable names of the searched model.
- The sizes `len(str(doc))` and `len(str(value))` are abstract functions. Python's rendering of a `defaultdict` is not modelled.
- `TranslatableMixin`, the locale lookup, `isinstance(obj, Page)` and `Page.is_root()` are not modelled; they are fields of `IndexedObject`.
- Setting values are None, booleans, integers, strings and lists of strings. Dicts and floats among the settings are not modelled.
  - A truthy configured `attributesForFaceting` that is not a list raises TypeError (a string `+=` a list).
  - Tuples would also fail at `+=`; they are not modelled.
- `_get_filters_from_where_node`, `add_model`, `AlgoliaSearchRebuilder`, `AlgoliaSearchBackend` and `refresh_index` are not modelled: they are construction and plumbing with no logic of their own.
- `Fields.RelatedNoneYieldsTwoPairs`, `Indexer.RelatedNoneEndsAsDict`: `field.get_value` is a total function here, so reading sub-fields off None always gives values. Wagtail's `get_value` is not part of this model. It most likely raises AttributeError on None, and that exception is not modelled.
- `SearchResults.FacetCountsPerValue`: only fields with one value per row are modelled. For a many-to-many FilterField, `values(field_name)` gives one group row per related value, so the counts can add up to more than the number of rows.
- `SearchResults.CountTwice` promises nothing when the first count fails. Its exception leaves the caches empty, so the second count searches again.
- `Indexer.GetDocuments` returns values. The aliasing of the list written into a document, which the loop keeps appending to, is not modelled: the model rewrites the list each time, with the same contents.
