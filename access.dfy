/**
 * The model access facade (`DataSourceModelAccess`): `list`, which hands
 * back an undrained merge iterator, and `retrieve`, which fetches one
 * object from the single plugin its broker id names.
 */
module ModelAccess {
  import opened Wrappers
  import opened Identifiers
  import opened Queries
  import opened Plugins
  import opened Iteration

  /** `list`: a fresh iterator over the selected plugins; no plugin is consulted yet. */
  method List(access: DataSourceModelAccess, q: Query) returns (it: DataSourceModelIterator)
    requires access.plugins.Valid()
    ensures fresh(it) && it.Valid()
    ensures it.query == q && it.model == access.model
    ensures it.plugins == SelectPlugins(access.plugins, q.datasource)
    ensures it.pluginIndex == -1 && it.cursor.None? && it.history == []
  {
    it := new DataSourceModelIterator(q, access);
  }

  /** The exceptions `retrieve` raises. */
  datatype RetrieveError =
    | InvalidId(id: string)
    | DataSourceNotFound(id: string)
    | NoDetail(id: string)
    | GetMissing(failure: Failure)

  /**
   * The text of each exception `retrieve` raises itself; the failure of a
   * missing `get` is raised by the language runtime, with no text of its own.
   */
  function Message(e: RetrieveError): (r: Option<string>)
    ensures r.Some? <==> !e.GetMissing?
  {
    match e
    case InvalidId(id) => Some("Invalid id " + id)
    case DataSourceNotFound(id) => Some("DataSource not not found for id " + id)
    case NoDetail(id) => Some("There is no detail for " + id)
    case GetMissing(_) => None
  }

  /** The texts tell the errors apart: the same text means the same error, for the same id. */
  lemma MessageInjective(e1: RetrieveError, e2: RetrieveError)
    requires Message(e1).Some? && Message(e1) == Message(e2)
    ensures e1 == e2
  {
    var m := Message(e1).value;
    match e1
    case InvalidId(id) =>
      assert m[0] == 'I';
      assert e2.InvalidId? && m == "Invalid id " + e2.id;
      assert id == m[11..] == e2.id;
    case DataSourceNotFound(id) =>
      assert m[0] == 'D';
      assert e2.DataSourceNotFound? && m == "DataSource not not found for id " + e2.id;
      assert id == m[32..] == e2.id;
    case NoDetail(id) =>
      assert m[0] == 'T';
      assert e2.NoDetail? && m == "There is no detail for " + e2.id;
      assert id == m[23..] == e2.id;
  }

  /** The response of `retrieve`: the caller's query and the object found, if any. */
  datatype SynthesisResponse = SynthesisResponse(query: QueryById, data: Option<DomainObject>)

  /**
   * `retrieve`: an empty id gives a response without data. Otherwise the
   * text before the first dash must be a registered prefix whose plugin has
   * a data source and a view of the model; that view's `get` receives the id
   * with `<prefix>-` removed and a filter naming only that data source.
   */
  function Retrieve(access: DataSourceModelAccess, q: QueryById): (r: Result<SynthesisResponse, RetrieveError>)
    ensures r.Ok? ==> r.value.query == q
    ensures q.id == "" ==> r == Ok(SynthesisResponse(q, None))
    ensures r == Err(InvalidId(q.id)) <==> q.id != "" && FirstToken(q.id) !in access.plugins.table
    ensures r == Err(DataSourceNotFound(q.id)) <==>
      q.id != "" && FirstToken(q.id) in access.plugins.table
      && access.plugins.table[FirstToken(q.id)].datasource.None?
    ensures r == Err(NoDetail(q.id)) <==>
      q.id != "" && FirstToken(q.id) in access.plugins.table
      && access.plugins.table[FirstToken(q.id)].datasource.Some?
      && access.model !in access.plugins.table[FirstToken(q.id)].views
    ensures r.Err? && r.error.GetMissing? <==>
      q.id != "" && FirstToken(q.id) in access.plugins.table
      && access.plugins.table[FirstToken(q.id)].datasource.Some?
      && access.model in access.plugins.table[FirstToken(q.id)].views
      && access.plugins.table[FirstToken(q.id)].views[access.model].get.None?
    ensures r.Err? && r.error.GetMissing? ==> r.error.failure == AttributeMissing("get")
  {
    if q.id == "" then Ok(SynthesisResponse(q, None))
    else
      var prefix := FirstToken(q.id);
      if prefix !in access.plugins.table then Err(InvalidId(q.id))
      else
        var plugin := access.plugins.table[prefix];
        if plugin.datasource.None? then Err(DataSourceNotFound(q.id))
        else
          var datasourcePk := ReplaceFirst(q.id, prefix + [Dash], "");
          if access.model !in plugin.views then Err(NoDetail(q.id))
          else
            var view := plugin.views[access.model];
            if view.get.None? then Err(GetMissing(AttributeMissing("get")))
            else
              var synthesized := q.(id := datasourcePk, datasource := Some([plugin.datasource.value.id]));
              Ok(SynthesisResponse(q, view.get.value(synthesized)))
  }

  /**
   * Retrieving a composed id reaches the plugin registered under its
   * (dash-free) prefix, whose `get` receives the local id intact, dashes
   * and all, and a filter naming only that plugin's data source.
   */
  lemma RetrieveComposed(access: DataSourceModelAccess, prefix: string, local: string, filter: Option<seq<string>>)
    requires Dash !in prefix
    requires prefix in access.plugins.table
    requires access.plugins.table[prefix].datasource.Some?
    requires access.model in access.plugins.table[prefix].views
    requires access.plugins.table[prefix].views[access.model].get.Some?
    ensures var q := QueryById(Compose(prefix, local), filter);
      var plugin := access.plugins.table[prefix];
      var get := plugin.views[access.model].get.value;
      Retrieve(access, q) == Ok(SynthesisResponse(q, get(QueryById(local, Some([plugin.datasource.value.id])))))
  {
    var id := Compose(prefix, local);
    FirstTokenOfComposed(prefix, local);
    assert prefix + [Dash] <= id;
    assert id[|prefix| + 1..] == local;
    assert ReplaceFirst(id, prefix + [Dash], "") == local;
  }

  /**
   * Only the plugin under the id's prefix is consulted: registries that
   * agree on that one entry give the same outcome, whatever else they hold.
   */
  lemma RetrieveConsultsOnePlugin(a: DataSourceModelAccess, b: DataSourceModelAccess, q: QueryById)
    requires a.model == b.model
    requires (FirstToken(q.id) in a.plugins.table) == (FirstToken(q.id) in b.plugins.table)
    requires FirstToken(q.id) in a.plugins.table ==>
      a.plugins.table[FirstToken(q.id)] == b.plugins.table[FirstToken(q.id)]
    ensures Retrieve(a, q) == Retrieve(b, q)
  {
  }

  /**
   * An id without a dash that equals a registered prefix is passed to that
   * plugin's `get` whole: there is no `<prefix>-` to remove.
   */
  lemma RetrieveDashlessId(access: DataSourceModelAccess, q: QueryById)
    requires q.id != "" && Dash !in q.id
    requires q.id in access.plugins.table
    requires access.plugins.table[q.id].datasource.Some?
    requires access.model in access.plugins.table[q.id].views
    requires access.plugins.table[q.id].views[access.model].get.Some?
    ensures var plugin := access.plugins.table[q.id];
      Retrieve(access, q)
        == Ok(SynthesisResponse(q, plugin.views[access.model].get.value(
                                     q.(datasource := Some([plugin.datasource.value.id])))))
  {
    assert FirstToken(q.id) == q.id;
    assert forall j :: !OccursAt(q.id, q.id + [Dash], j);
  }
}
