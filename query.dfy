/** `AlgoliaSearchQueryCompiler.get_query`: the query string and the fixed
    search parameters. The queryset's own filters are not translated: they are
    applied by the database when hits are reconciled. */
module QueryCompiler {
  import opened Values
  import opened Text

  /** The parameters passed to Algolia's `index.search`. */
  datatype SearchParams = SearchParams(
    filters: string,
    attributesToRetrieve: seq<string>,
    attributesToHighlight: seq<string>)

  /** `get_query`: only documents flagged `wagtail_managed` are searched, only
      `wagtail_obj_id` is retrieved, nothing is highlighted. */
  function GetQuery(queryString: string): (string, SearchParams) {
    (queryString, SearchParams(
       filters := "wagtail_managed:true",
       attributesToRetrieve := ["wagtail_obj_id"],
       attributesToHighlight := []))
  }

  /** The rendering of a root-level attribute of a document, as Algolia stores it. */
  function RootAttribute(d: Document, attribute: string): Option<string> {
    if attribute == "objectID" then Some(d.objectID)
    else if attribute == "wagtail_managed" then Some(if d.wagtailManaged then "true" else "false")
    else if attribute == "wagtail_obj_id" then Some(d.wagtailObjId)
    else if attribute == "model" then Some(d.model)
    else if attribute == "locale" then d.locale
    else None
  }

  /** Whether a document passes an Algolia filter `attribute:value` on one of
      its root-level attributes. */
  predicate Admits(filter: string, d: Document) {
    var parts := Split(filter, ':');
    |parts| == 2 && RootAttribute(d, parts[0]) == Some(parts[1])
  }

  /** The compiled filter lets through exactly the documents flagged
      `wagtail_managed == True`, whatever the query string. */
  lemma ManagedFilterAdmitsManagedOnly(queryString: string, d: Document)
    ensures Admits(GetQuery(queryString).1.filters, d) <==> d.wagtailManaged
  {
    ManagedFilterParts(queryString);
  }

  /** The compiled filter names the attribute `wagtail_managed` and the value
      `true`. */
  lemma ManagedFilterParts(queryString: string)
    ensures Split(GetQuery(queryString).1.filters, ':') == ["wagtail_managed", "true"]
  {
    assert Join(["wagtail_managed", "true"], ':') == GetQuery(queryString).1.filters;
    JoinSplit(["wagtail_managed", "true"], ':');
  }

  /** What a hit carries: the requested root-level attributes the document has. */
  function Retrieve(d: Document, attributes: seq<string>): map<string, string> {
    map a | a in attributes && RootAttribute(d, a).Some? :: RootAttribute(d, a).value
  }
}
