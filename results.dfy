/** `AlgoliaSearchResults`: the hits Algolia returns are turned back into model
    instances of the searched queryset, in hit order, and memoised. */
module SearchResults {
  import opened Values
  import opened Text
  import opened Indexer
  import opened QueryCompiler

  /** A search hit: the attributes Algolia returned for one record. */
  datatype Hit = Hit(attributes: map<string, string>)

  /** The host's model registry: `apps.get_model(app_label, ObjectName)` (None
      when it raises LookupError) and `issubclass` between model classes. */
  datatype Registry = Registry(
    lookup: (string, string) -> Option<ModelName>,
    isSubclass: (ModelName, ModelName) -> bool)

  /** The exceptions that leave `_do_search`. */
  datatype SearchError = KeyError(key: string) | LookupError(modelLabel: string)

  /** What the loop body does with one hit: append a key, `continue` after a
      ValueError, or let an exception out. */
  datatype HitOutcome = Keep(pk: string) | Skip | Raise(error: SearchError)

  /** The queryset being searched: its model and its rows, with the host's own
      filters already applied, in the database's order. */
  datatype HostQuerySet = HostQuerySet(model: ModelName, rows: seq<ModelRef>)

  /** The errors `facet` raises, or the search error it lets through. */
  datatype FacetError = FilterFieldError(message: string, fieldName: string) | SearchFailed(error: SearchError)

  /** One iteration of the hit loop of `_do_search`. Unpacking the `:`-split of
      the id into two names, and `get_model` splitting the label on `.`, raise
      ValueError, which skips the hit; a missing attribute (KeyError) and an
      unknown model (LookupError) are not caught. */
  function ClassifyHit(hit: Hit, model: ModelName, registry: Registry): HitOutcome {
    if "wagtail_obj_id" !in hit.attributes then Raise(KeyError("wagtail_obj_id"))
    else
      var parts := Split(hit.attributes["wagtail_obj_id"], ':');
      if |parts| != 2 then Skip
      else
        var labelParts := Split(parts[0], '.');
        if |labelParts| != 2 then Skip
        else
          match registry.lookup(labelParts[0], labelParts[1])
          case None => Raise(LookupError(parts[0]))
          case Some(found) => if registry.isSubclass(found, model) then Keep(parts[1]) else Skip
  }

  /** The keys the hit loop collects, in hit order, or the first exception. */
  function KeptPks(hits: seq<Hit>, model: ModelName, registry: Registry): Result<seq<string>, SearchError>
    decreases |hits|
  {
    if hits == [] then Success([])
    else
      match KeptPks(hits[..|hits| - 1], model, registry)
      case Failure(e) => Failure(e)
      case Success(pks) =>
        match ClassifyHit(hits[|hits| - 1], model, registry)
        case Raise(e) => Failure(e)
        case Keep(pk) => Success(pks + [pk])
        case Skip => Success(pks)
  }

  /** An exception ends the loop: a prefix that fails decides the whole result. */
  lemma {:induction false} KeptPksFailurePersists(hits: seq<Hit>, n: nat, model: ModelName, registry: Registry)
    requires n <= |hits|
    requires KeptPks(hits[..n], model, registry).Failure?
    ensures KeptPks(hits, model, registry) == KeptPks(hits[..n], model, registry)
    decreases |hits|
  {
    if n < |hits| {
      var init := hits[..|hits| - 1];
      assert init[..n] == hits[..n];
      KeptPksFailurePersists(init, n, model, registry);
    } else {
      assert hits[..n] == hits;
    }
  }

  /** The loop fails exactly when some hit raises, and then with the first
      exception raised; otherwise it keeps exactly the keys of the kept hits. */
  lemma {:induction false} KeptPksOutcome(hits: seq<Hit>, model: ModelName, registry: Registry)
    ensures KeptPks(hits, model, registry).Failure? <==>
            exists i | 0 <= i < |hits| :: ClassifyHit(hits[i], model, registry).Raise?
    ensures KeptPks(hits, model, registry).Failure? ==>
            exists i | 0 <= i < |hits| ::
              && ClassifyHit(hits[i], model, registry) == Raise(KeptPks(hits, model, registry).error)
              && forall j | 0 <= j < i :: !ClassifyHit(hits[j], model, registry).Raise?
    ensures KeptPks(hits, model, registry).Success? ==>
            forall p :: p in KeptPks(hits, model, registry).value <==>
              exists i | 0 <= i < |hits| :: ClassifyHit(hits[i], model, registry) == Keep(p)
    decreases |hits|
  {
    if hits != [] {
      var init := hits[..|hits| - 1];
      var n := |hits| - 1;
      KeptPksOutcome(init, model, registry);
      assert forall i | 0 <= i < n :: init[i] == hits[i];
      var last := ClassifyHit(hits[n], model, registry);
      if KeptPks(init, model, registry).Success? && last.Keep? {
        var pks := KeptPks(init, model, registry).value;
        forall p ensures p in pks + [last.pk] <==>
          exists i | 0 <= i < |hits| :: ClassifyHit(hits[i], model, registry) == Keep(p)
        {
          if p in pks {
            var i :| 0 <= i < n && ClassifyHit(init[i], model, registry) == Keep(p);
            assert ClassifyHit(hits[i], model, registry) == Keep(p);
          }
        }
      }
    }
  }

  /** The hit loop of `_do_search`. */
  method CollectPks(hits: seq<Hit>, model: ModelName, registry: Registry)
    returns (r: Result<seq<string>, SearchError>)
    ensures r == KeptPks(hits, model, registry)
  {
    var pks: seq<string> := [];
    for i := 0 to |hits|
      invariant KeptPks(hits[..i], model, registry) == Success(pks)
    {
      assert hits[..i + 1][..i] == hits[..i];
      match ClassifyHit(hits[i], model, registry)
      case Raise(e) =>
        KeptPksFailurePersists(hits, i + 1, model, registry);
        return Failure(e);
      case Keep(pk) =>
        pks := pks + [pk];
      case Skip =>
    }
    assert hits[..|hits|] == hits;
    return Success(pks);
  }

  /** The rows whose key is `pk`, in row order. */
  function RowsWithPk(rows: seq<ModelRef>, pk: string): seq<ModelRef>
    decreases |rows|
  {
    if rows == [] then []
    else (if rows[0].pk == pk then [rows[0]] else []) + RowsWithPk(rows[1..], pk)
  }

  /** The rows whose key is not `pk`, in row order. */
  function RowsWithoutPk(rows: seq<ModelRef>, pk: string): seq<ModelRef>
    decreases |rows|
  {
    if rows == [] then []
    else (if rows[0].pk != pk then [rows[0]] else []) + RowsWithoutPk(rows[1..], pk)
  }

  /** `queryset.filter(pk__in=pks).order_by(Case(When(pk=pk, then=pos) ...))`:
      the rows whose key is collected, ordered by the first position of their
      key among the collected keys. */
  function Reorder(rows: seq<ModelRef>, pks: seq<string>): seq<ModelRef>
    decreases |pks|
  {
    if pks == [] then []
    else RowsWithPk(rows, pks[0]) + Reorder(RowsWithoutPk(rows, pks[0]), pks[1..])
  }

  /** `_do_search` after the search call: the collected keys resolved against
      the queryset, or the exception the hit loop raised. */
  function Reconcile(queryset: HostQuerySet, hits: seq<Hit>, registry: Registry): Result<seq<ModelRef>, SearchError> {
    match KeptPks(hits, queryset.model, registry)
    case Failure(e) => Failure(e)
    case Success(pks) => Success(Reorder(queryset.rows, pks))
  }

  /** The position of the first occurrence of `p`, the `then=pos` a row with
      that key is ordered by. */
  function FirstIndex(pks: seq<string>, p: string): (i: nat)
    requires p in pks
    ensures i < |pks| && pks[i] == p
    ensures forall j | 0 <= j < i :: pks[j] != p
  {
    if pks[0] == p then 0 else 1 + FirstIndex(pks[1..], p)
  }

  /** No two rows of a queryset share a key. */
  predicate PksDistinct(rows: seq<ModelRef>) {
    forall i, j | 0 <= i < j < |rows| :: rows[i].pk != rows[j].pk
  }

  /** Splitting rows by one key loses and invents nothing. */
  lemma {:induction false} SplitByPkMembers(rows: seq<ModelRef>, pk: string)
    ensures forall r :: r in RowsWithPk(rows, pk) <==> r in rows && r.pk == pk
    ensures forall r :: r in RowsWithoutPk(rows, pk) <==> r in rows && r.pk != pk
    decreases |rows|
  {
    if rows != [] {
      SplitByPkMembers(rows[1..], pk);
      assert rows == [rows[0]] + rows[1..];
    }
  }

  lemma {:induction false} NoRowsWithPk(rows: seq<ModelRef>, pk: string)
    requires forall r | r in rows :: r.pk != pk
    ensures RowsWithPk(rows, pk) == []
    decreases |rows|
  {
    if rows != [] {
      assert rows[0] in rows;
      assert forall r | r in rows[1..] :: r in rows;
      NoRowsWithPk(rows[1..], pk);
    }
  }

  /** The rows after the first have distinct keys, none of them the first's. */
  lemma PksDistinctTail(rows: seq<ModelRef>)
    requires rows != [] && PksDistinct(rows)
    ensures PksDistinct(rows[1..])
    ensures forall r | r in rows[1..] :: r.pk != rows[0].pk
  {
    var tail := rows[1..];
    forall i, j | 0 <= i < j < |tail| ensures tail[i].pk != tail[j].pk {
      assert tail[i] == rows[i + 1] && tail[j] == rows[j + 1];
    }
    forall r | r in tail ensures r.pk != rows[0].pk {
      var j :| 0 <= j < |tail| && tail[j] == r;
      assert rows[j + 1] == r;
    }
  }

  /** A row whose key none of `rows` has can go in front of them. */
  lemma PksDistinctCons(x: ModelRef, rows: seq<ModelRef>)
    requires PksDistinct(rows)
    requires forall r | r in rows :: r.pk != x.pk
    ensures PksDistinct([x] + rows)
  {
    var all := [x] + rows;
    forall i, j | 0 <= i < j < |all| ensures all[i].pk != all[j].pk {
      assert all[j] == rows[j - 1] && rows[j - 1] in rows;
      if i > 0 {
        assert all[i] == rows[i - 1];
      }
    }
  }

  /** With distinct keys, at most one row carries a given key, and the other
      rows still have distinct keys. */
  lemma {:induction false} SplitByPkDistinct(rows: seq<ModelRef>, pk: string)
    requires PksDistinct(rows)
    ensures |RowsWithPk(rows, pk)| <= 1
    ensures PksDistinct(RowsWithoutPk(rows, pk))
    decreases |rows|
  {
    if rows != [] {
      var tail := rows[1..];
      PksDistinctTail(rows);
      SplitByPkDistinct(tail, pk);
      SplitByPkMembers(tail, pk);
      if rows[0].pk == pk {
        NoRowsWithPk(tail, pk);
      } else {
        PksDistinctCons(rows[0], RowsWithoutPk(tail, pk));
      }
    }
  }

  /** A row is returned exactly when it is in the queryset and its key was
      collected. */
  lemma {:induction false} ReorderMembers(rows: seq<ModelRef>, pks: seq<string>)
    ensures forall r :: r in Reorder(rows, pks) <==> r in rows && r.pk in pks
    decreases |pks|
  {
    if pks != [] {
      SplitByPkMembers(rows, pks[0]);
      ReorderMembers(RowsWithoutPk(rows, pks[0]), pks[1..]);
      assert pks == [pks[0]] + pks[1..];
    }
  }

  /** Over rows with distinct keys, the result follows the order of the hits:
      its keys sit at strictly increasing first positions among the collected
      keys, so no row comes twice although a record split into several
      documents can produce the same key more than once. */
  lemma {:induction false} ReorderFollowsHits(rows: seq<ModelRef>, pks: seq<string>)
    requires PksDistinct(rows)
    ensures forall r | r in Reorder(rows, pks) :: r.pk in pks
    ensures PksDistinct(Reorder(rows, pks))
    ensures forall i, j | 0 <= i < j < |Reorder(rows, pks)| ::
              FirstIndex(pks, Reorder(rows, pks)[i].pk) < FirstIndex(pks, Reorder(rows, pks)[j].pk)
    decreases |pks|
  {
    ReorderMembers(rows, pks);
    if pks != [] {
      var p, rest := pks[0], pks[1..];
      var w := RowsWithoutPk(rows, p);
      var a, b := RowsWithPk(rows, p), Reorder(w, rest);
      var out := Reorder(rows, pks);
      assert out == a + b;
      SplitByPkMembers(rows, p);
      SplitByPkDistinct(rows, p);
      ReorderFollowsHits(w, rest);
      ReorderMembers(w, rest);
      forall x | x in b ensures x.pk in rest && x.pk != p && FirstIndex(pks, x.pk) == 1 + FirstIndex(rest, x.pk) {
      }
      forall i, j | 0 <= i < j < |out|
        ensures FirstIndex(pks, out[i].pk) < FirstIndex(pks, out[j].pk)
      {
        assert out[j] == b[j - |a|] && b[j - |a|] in b;
        if i < |a| {
          assert out[i] == a[i] && a[i] in a;
        } else {
          assert out[i] == b[i - |a|] && b[i - |a|] in b;
        }
      }
    }
  }

  /** The id a document carries names its model and key the way the hit loop
      reads them back: the object is kept when its model is known and
      a subclass of the searched model, skipped when it is known but not a
      subclass, and LookupError escapes when it is unknown. */
  lemma ClassifyObjectId(r: ModelRef, model: ModelName, registry: Registry, attributes: map<string, string>)
    requires WellFormedRef(r)
    requires "wagtail_obj_id" in attributes && attributes["wagtail_obj_id"] == ObjectId(r)
    ensures ClassifyHit(Hit(attributes), model, registry) ==
      match registry.lookup(r.model.appLabel, r.model.objectName)
      case None => Raise(LookupError(ModelLabel(r.model)))
      case Some(found) => if registry.isSubclass(found, model) then Keep(r.pk) else Skip
  {
    ObjectIdSplits(r);
  }

  /** A record whose id has no `:` is not one of this backend's and is skipped. */
  lemma ForeignIdSkipped(attributes: map<string, string>, model: ModelName, registry: Registry)
    requires "wagtail_obj_id" in attributes && ':' !in attributes["wagtail_obj_id"]
    ensures ClassifyHit(Hit(attributes), model, registry) == Skip
  {
    SplitWithoutSeparator(attributes["wagtail_obj_id"], ':');
  }

  /** A document flagged as managed and carrying an object's id passes the
      compiled filter, and what the compiled query retrieves from it leads the
      hit loop back to the object's key. */
  lemma ManagedDocumentFound(r: ModelRef, d: Document, queryString: string, model: ModelName, registry: Registry)
    requires WellFormedRef(r)
    requires registry.lookup(r.model.appLabel, r.model.objectName) == Some(r.model)
    requires d.wagtailManaged && d.wagtailObjId == ObjectId(r)
    ensures Admits(GetQuery(queryString).1.filters, d)
    ensures ClassifyHit(Hit(Retrieve(d, GetQuery(queryString).1.attributesToRetrieve)), model, registry)
            == if registry.isSubclass(r.model, model) then Keep(r.pk) else Skip
  {
    ManagedFilterAdmitsManagedOnly(queryString, d);
    RetrieveObjId(d);
    ClassifyObjectId(r, model, registry, Retrieve(d, ["wagtail_obj_id"]));
  }

  lemma RetrieveObjId(d: Document)
    ensures Retrieve(d, ["wagtail_obj_id"]) == map["wagtail_obj_id" := d.wagtailObjId]
  {
  }

  /** Every document written for an object is found again by a search: it
      passes the compiled filter and its hit yields the object's key. */
  lemma IndexedDocumentFound(host: Host, obj: IndexedObject, k: nat, queryString: string,
                             model: ModelName, registry: Registry)
    requires WellFormedRef(obj.ref)
    requires registry.lookup(obj.ref.model.appLabel, obj.ref.model.objectName) == Some(obj.ref.model)
    requires k < |Documents(host, obj)|
    ensures Admits(GetQuery(queryString).1.filters, Documents(host, obj)[k])
    ensures ClassifyHit(Hit(Retrieve(Documents(host, obj)[k], GetQuery(queryString).1.attributesToRetrieve)),
                        model, registry)
            == if registry.isSubclass(obj.ref.model, model) then Keep(obj.ref.pk) else Skip
  {
    DocumentsHeaders(host, obj);
    ManagedDocumentFound(obj.ref, Documents(host, obj)[k], queryString, model, registry);
  }

  /** A key holding `:` makes the id split into more than two parts: the
      unpacking raises ValueError, and the hit is skipped. */
  lemma ColonKeyHitSkipped(r: ModelRef, model: ModelName, registry: Registry, attributes: map<string, string>)
    requires WellFormedModel(r.model) && ':' in r.pk
    requires "wagtail_obj_id" in attributes && attributes["wagtail_obj_id"] == ObjectId(r)
    ensures ClassifyHit(Hit(attributes), model, registry) == Skip
  {
    SplitAtFirstSeparator(ModelLabel(r.model), ':', r.pk);
    assert ObjectId(r) == ModelLabel(r.model) + [':'] + r.pk;
    SplitAtSeparator(r.pk, ':');
  }

  /** An object whose key holds `:` is indexed but never found: every one of its
      documents passes the filter, and its hit is skipped. */
  lemma ColonKeyDocumentNeverFound(host: Host, obj: IndexedObject, k: nat, queryString: string,
                                   model: ModelName, registry: Registry)
    requires WellFormedModel(obj.ref.model) && ':' in obj.ref.pk
    requires k < |Documents(host, obj)|
    ensures Admits(GetQuery(queryString).1.filters, Documents(host, obj)[k])
    ensures ClassifyHit(Hit(Retrieve(Documents(host, obj)[k], GetQuery(queryString).1.attributesToRetrieve)),
                        model, registry) == Skip
  {
    DocumentsHeaders(host, obj);
    var d := Documents(host, obj)[k];
    ManagedFilterAdmitsManagedOnly(queryString, d);
    RetrieveObjId(d);
    ColonKeyHitSkipped(obj.ref, model, registry, Retrieve(d, ["wagtail_obj_id"]));
  }

  /** Retrieving only `objectID`, the attribute the backend's own tests expect,
      leaves every hit without `wagtail_obj_id`, and the hit loop raises
      KeyError on the first one. */
  lemma ObjectIdOnlyHitRaises(d: Document, model: ModelName, registry: Registry)
    ensures ClassifyHit(Hit(Retrieve(d, ["objectID"])), model, registry) == Raise(KeyError("wagtail_obj_id"))
  {
    assert "wagtail_obj_id" !in Retrieve(d, ["objectID"]);
  }

  /** The facet counts of the result rows: how many rows have each value of
      the field. */
  function FacetCounts(rows: seq<ModelRef>, fieldName: string, valueOf: (ModelRef, string) -> Value): multiset<Value>
    decreases |rows|
  {
    if rows == [] then multiset{}
    else FacetCounts(rows[..|rows| - 1], fieldName, valueOf) + multiset{valueOf(rows[|rows| - 1], fieldName)}
  }

  /** The positions of the rows that have value `v` for the field. */
  function RowsHaving(rows: seq<ModelRef>, fieldName: string, valueOf: (ModelRef, string) -> Value, v: Value): set<nat> {
    set i: nat | i < |rows| && valueOf(rows[i], fieldName) == v
  }

  lemma RowsHavingSnoc(rows: seq<ModelRef>, fieldName: string, valueOf: (ModelRef, string) -> Value, v: Value)
    requires rows != []
    ensures var n := |rows| - 1;
      && n !in RowsHaving(rows[..n], fieldName, valueOf, v)
      && RowsHaving(rows, fieldName, valueOf, v)
         == RowsHaving(rows[..n], fieldName, valueOf, v) + (if valueOf(rows[n], fieldName) == v then {n} else {})
  {
    var n := |rows| - 1;
    assert forall i | 0 <= i < n :: rows[..n][i] == rows[i];
  }

  /** `values(field).annotate(count=Count("pk"))`: each value is counted once
      per row that has it, and the counts add up to the number of rows. */
  lemma {:induction false} FacetCountsPerValue(rows: seq<ModelRef>, fieldName: string,
                                              valueOf: (ModelRef, string) -> Value, v: Value)
    ensures FacetCounts(rows, fieldName, valueOf)[v] == |RowsHaving(rows, fieldName, valueOf, v)|
    ensures |FacetCounts(rows, fieldName, valueOf)| == |rows|
    decreases |rows|
  {
    if rows != [] {
      var n := |rows| - 1;
      FacetCountsPerValue(rows[..n], fieldName, valueOf, v);
      RowsHavingSnoc(rows, fieldName, valueOf, v);
    }
  }

  /** The message of the FilterFieldError raised for a field that is not a
      FilterField of the searched model. */
  function FacetErrorMessage(fieldName: string, modelName: string): string {
    "Cannot facet search results with field \"" + fieldName
    + "\". Please add index.FilterField('" + fieldName + "') to " + modelName + ".search_fields."
  }

  /** Whether a cache holds a value Python treats as true: a non-empty queryset. */
  predicate Truthy(cache: Option<seq<ModelRef>>) {
    cache.Some? && cache.value != []
  }

  class AlgoliaSearchResults {
    const queryString: string
    const queryset: HostQuerySet
    /** The names `_get_filterable_field` finds: the FilterFields of the model. */
    const filterable: set<string>
    /** What the index answers to a search call. */
    const respond: (string, SearchParams) -> seq<Hit>
    const registry: Registry

    var searchCache: Option<seq<ModelRef>>
    var resultsCache: Option<seq<ModelRef>>
    var countCache: Option<nat>
    /** Every search call sent to the index, in order. */
    ghost var searches: seq<(string, SearchParams)>

    /** The three caches are filled together by a successful search. */
    ghost predicate Valid()
      reads this
    {
      && resultsCache == searchCache
      && (countCache.Some? <==> searchCache.Some?)
      && (searchCache.Some? ==> countCache.value == |searchCache.value|)
    }

    /** What `_do_search` answers in the current state. */
    ghost function Outcome(): Result<seq<ModelRef>, SearchError>
      reads this
    {
      if Truthy(searchCache) then Success(searchCache.value)
      else Reconcile(queryset, respond(queryString, GetQuery(queryString).1), registry)
    }

    constructor(queryString: string, queryset: HostQuerySet, filterable: set<string>,
                respond: (string, SearchParams) -> seq<Hit>, registry: Registry)
      ensures this.queryString == queryString && this.queryset == queryset
      ensures this.filterable == filterable && this.respond == respond && this.registry == registry
      ensures searchCache.None? && resultsCache.None? && countCache.None? && searches == []
      ensures Valid()
    {
      this.queryString := queryString;
      this.queryset := queryset;
      this.filterable := filterable;
      this.respond := respond;
      this.registry := registry;
      searchCache := None;
      resultsCache := None;
      countCache := None;
      searches := [];
    }

    /** `_do_search`: a non-empty cached result is returned as is; otherwise the
        index is searched once and, if no exception escapes, the result, the
        list of rows and its length are cached. */
    method DoSearch() returns (r: Result<seq<ModelRef>, SearchError>)
      requires Valid()
      modifies this
      ensures Valid()
      ensures r == old(Outcome())
      ensures Truthy(old(searchCache)) ==> unchanged(this)
      ensures !Truthy(old(searchCache)) ==> searches == old(searches) + [GetQuery(queryString)]
      ensures !Truthy(old(searchCache)) && r.Success? ==>
                searchCache == Some(r.value) && resultsCache == Some(r.value) && countCache == Some(|r.value|)
      ensures r.Failure? ==>
                searchCache == old(searchCache) && resultsCache == old(resultsCache) && countCache == old(countCache)
    {
      if searchCache.Some? && searchCache.value != [] {
        return Success(searchCache.value);
      }
      var query := GetQuery(queryString);
      searches := searches + [query];
      var hits := respond(query.0, query.1);
      var pks := CollectPks(hits, queryset.model, registry);
      match pks
      case Failure(e) =>
        return Failure(e);
      case Success(keys) =>
        var rows := Reorder(queryset.rows, keys);
        searchCache := Some(rows);
        resultsCache := Some(rows);
        countCache := Some(|rows|);
        return Success(rows);
    }

    /** `_do_count`: the index is searched only while no count is cached. */
    method DoCount() returns (r: Result<nat, SearchError>)
      requires Valid()
      modifies this
      ensures Valid()
      ensures old(countCache).Some? ==> r == Success(old(countCache).value) && unchanged(this)
      ensures old(countCache).None? ==> searches == old(searches) + [GetQuery(queryString)]
      ensures old(countCache).None? ==>
                match old(Outcome())
                case Success(rows) => r == Success(|rows|) && countCache == Some(|rows|) && searchCache == Some(rows)
                case Failure(e) => r == Failure(e) && countCache.None? && searchCache.None?
    {
      if countCache.None? {
        var s := DoSearch();
        if s.Failure? {
          return Failure(s.error);
        }
      }
      return Success(countCache.value);
    }

    /** `facet`: FilterFieldError for a field that is not filterable, otherwise
        the number of result rows per value of the field. */
    method Facet(fieldName: string, valueOf: (ModelRef, string) -> Value)
      returns (r: Result<multiset<Value>, FacetError>)
      requires Valid()
      modifies this
      ensures Valid()
      ensures fieldName !in filterable ==>
                r == Failure(FilterFieldError(FacetErrorMessage(fieldName, queryset.model.objectName), fieldName))
                && unchanged(this)
      ensures fieldName in filterable ==>
                match old(Outcome())
                case Success(rows) => r == Success(FacetCounts(rows, fieldName, valueOf))
                case Failure(e) => r == Failure(SearchFailed(e))
      ensures fieldName in filterable && Truthy(old(searchCache)) ==> unchanged(this)
      ensures fieldName in filterable && !Truthy(old(searchCache)) ==>
                searches == old(searches) + [GetQuery(queryString)]
      ensures fieldName in filterable && !Truthy(old(searchCache)) ==>
                match old(Outcome())
                case Success(rows) =>
                  searchCache == Some(rows) && resultsCache == Some(rows) && countCache == Some(|rows|)
                case Failure(_) =>
                  searchCache == old(searchCache) && resultsCache == old(resultsCache) && countCache == old(countCache)
    {
      if fieldName !in filterable {
        return Failure(FilterFieldError(FacetErrorMessage(fieldName, queryset.model.objectName), fieldName));
      }
      var s := DoSearch();
      match s
      case Failure(e) =>
        return Failure(SearchFailed(e));
      case Success(rows) =>
        return Success(FacetCounts(rows, fieldName, valueOf));
    }
  }

  /** Counting twice sends at most one search call to the index when the first
      count succeeds. */
  method CountTwice(results: AlgoliaSearchResults) returns (first: Result<nat, SearchError>, second: Result<nat, SearchError>)
    requires results.Valid()
    modifies results
    ensures first.Success? ==> second == first && |results.searches| <= |old(results.searches)| + 1
  {
    first := results.DoCount();
    second := results.DoCount();
  }

  /** A successful facet fills the count cache: counting afterwards sends no
      further search. */
  method FacetThenCount(results: AlgoliaSearchResults, fieldName: string, valueOf: (ModelRef, string) -> Value)
    returns (facets: Result<multiset<Value>, FacetError>, count: Result<nat, SearchError>)
    requires results.Valid()
    modifies results
    ensures facets.Success? ==>
              |results.searches| <= |old(results.searches)| + 1
              && count.Success? && count.value == |facets.value|
  {
    facets := results.Facet(fieldName, valueOf);
    if facets.Success? {
      FacetCountsPerValue(results.searchCache.value, fieldName, valueOf, Null);
    }
    count := results.DoCount();
  }

  /** An empty result is not memoised: a second search call goes to the index. */
  method SearchTwiceWhenEmpty(results: AlgoliaSearchResults) returns (first: Result<seq<ModelRef>, SearchError>)
    requires results.Valid() && !Truthy(results.searchCache)
    requires Reconcile(results.queryset, results.respond(results.queryString, GetQuery(results.queryString).1),
                       results.registry) == Success([])
    modifies results
    ensures first == Success([])
    ensures results.searches == old(results.searches) + [GetQuery(results.queryString), GetQuery(results.queryString)]
  {
    first := results.DoSearch();
    var again := results.DoSearch();
  }
}
