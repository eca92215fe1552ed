/** The entities the search backend works on: model classes and instances as the
    host framework presents them, the Python values a search field can return,
    search-field descriptors, and the Algolia document the indexer builds. */
module Values {

  datatype Option<+T> = None | Some(value: T)

  datatype Result<+T, +E> = Success(value: T) | Failure(error: E)

  /** A model class, as `_meta.app_label` and `_meta.object_name` name it. */
  datatype ModelName = ModelName(appLabel: string, objectName: string)

  /** A model instance, identified by its concrete class and its primary key
      (the key as `str(obj.pk)` renders it). */
  datatype ModelRef = ModelRef(model: ModelName, pk: string)

  /** The Python values a search field can hand to the indexer. Every value
      that is none of the others (str, int, bool, date, ...) is a `Scalar`,
      kept as its JSON rendering. */
  datatype Value =
    | Null                                  // None
    | Scalar(text: string)
    | Instance(ref: ModelRef)               // a models.Model instance
    | Manager(rows: seq<ModelRef>)          // a related manager; rows in .all() order
    | QuerySet(rows: seq<ModelRef>)         // a QuerySet; rows in iteration order
    | List(elems: seq<Value>)               // a Python list
    | Tuple(elems: seq<Value>)              // a Python tuple
    | Callable(result: Value)               // a zero-argument callable and what it returns
    | Dict(entries: map<string, Value>)     // a Python dict

  /** The primary key of an instance, as it is written into a document. */
  function PkValue(r: ModelRef): Value {
    Scalar(r.pk)
  }

  /** A search-field descriptor; `definedIn` is the model that declares it
      (what `get_definition_model` answers). */
  datatype Field =
    | SearchField(name: string, definedIn: ModelName)
    | AutocompleteField(name: string, definedIn: ModelName)
    | FilterField(name: string, definedIn: ModelName)
    | RelatedFields(name: string, definedIn: ModelName, fields: seq<Field>)

  /** An object handed to the indexer: the instance, whether its class mixes in
      `TranslatableMixin` and the language code of its `locale` (if any), and
      whether it is a `Page` that is the tree root. */
  datatype IndexedObject = IndexedObject(
    ref: ModelRef,
    translatable: bool,
    language: Option<string>,
    isPage: bool,
    isRoot: bool)

  /** An Algolia record: the root-level bookkeeping attributes and one
      sub-object per declaring model, keyed `<app_label>__<ObjectName>`. */
  datatype Document = Document(
    objectID: string,
    wagtailManaged: bool,
    wagtailObjId: string,
    locale: Option<string>,
    model: string,
    sections: map<string, map<string, Value>>)

  /** The names of the root-level attributes of every document. */
  const RootKeys: set<string> := {"objectID", "wagtail_managed", "wagtail_obj_id", "locale", "model"}
}
