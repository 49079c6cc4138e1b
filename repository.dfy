/**
 * The `Repository` resource (`repository.py`): uploading, listing, deleting
 * and cleaning up repository items.  Unlike the scheduler, every operation
 * here joins path and encoded dictionary with `properParams`, so an `&`
 * separates them.  The methods return what the operation hands to the
 * client; the try/except around the call is `Api.APIBase.Call` with the
 * label constants below.
 * The methods ending in `Call`, at the end of the module, run each
 * operation end to end.
 */
module Repository {
  import opened Py
  import opened Query
  import opened Params
  import opened Api

  const UploadLabel := "upload item API call"
  const ListLabel := "list repository API call"
  const DeleteLabel := "delete item API call"
  const CleanLabel := "clean up repository API call"

  const UploadRequired := "repository key or itemKey are invalid values."
  const ListRequired := "repository and itemKey are required fields and the values are invalid."
  const DeleteRequired := "repository and itemKey are required parameters and the values are invalid."
  const CleanRequired := "itemKey value is invalid."

  /** `repositories/<repository>/<itemKey>?operation=<op>`. */
  function ItemPath(repository: Val, itemKey: Val, op: string): (r: string)
    ensures StartsWith(r, "repositories/")
  {
    "repositories/" + Str(repository) + "/" + Str(itemKey) + "?operation=" + op
  }

  /** `repositories/executions/<itemKey>?operation=clean`. */
  function CleanPath(itemKey: Val): (r: string)
    ensures StartsWith(r, "repositories/executions/")
  {
    "repositories/executions/" + Str(itemKey) + "?operation=clean"
  }

  /** The `overwrite` text: "true" only for the value `True` itself, "false" for any other truthy value. */
  function OverwriteText(overwrite: Val): (v: Val)
    ensures v == StrVal("true") <==> overwrite == BoolVal(true)
    ensures v == StrVal("false") <==> overwrite != BoolVal(true)
  {
    StrVal(if overwrite == BoolVal(true) then "true" else "false")
  }

  /** The assignments `uploadItem` makes before its `property.` update, in order. */
  function UploadEntries(admin: Val, owner: Val, group: Val, overwrite: Val, format: Val, responseFormat: Val): seq<Entry>
  {
    [IfSet("admin", admin), IfSet("owner", owner), IfSet("group", group),
     Entry("overwrite", Truthy(overwrite), OverwriteText(overwrite)),
     IfSet("format", format), Always("responseFormat", responseFormat)]
  }

  /**
   * `params.update({("property.%s" % k, v) for (k, v) in properties})` when
   * `properties` is not empty: each keyword KEY is unpacked into two
   * characters, and one that does not unpack raises ValueError.
   */
  method AddProperties(params: Params, properties: map<string, Val>) returns (r: Result<Params, Exc>)
    ensures r.Failure? <==> exists k :: k in properties && |k| != 2
    ensures r.Failure? ==> r.error.ValueError?
    ensures r.Success? ==>
              && r.value.Keys == params.Keys + Firsts(KeyPairs("property.", properties.Keys))
              && Includes(r.value, KeyPairs("property.", properties.Keys))
              && forall k :: k in params && k !in Firsts(KeyPairs("property.", properties.Keys)) ==>
                               r.value[k] == params[k]
  {
    if |properties| > 0 {
      var unpacked := UnpackKeys("property.", properties);
      if unpacked.Failure? {
        return Failure(unpacked.error);
      }
      var updated := Update(params, unpacked.value);
      return Success(updated);
    }
    NothingAdded(params, KeyPairs("property.", properties.Keys));
    return Success(params);
  }

  /** The `property.` keys all have ten characters. */
  lemma PropertyKeys(properties: map<string, Val>)
    ensures forall k :: k in Firsts(KeyPairs("property.", properties.Keys)) ==> |k| == 10
  {
    forall k | k in Firsts(KeyPairs("property.", properties.Keys)) ensures |k| == 10 {
      var e :| e in KeyPairs("property.", properties.Keys) && e.0 == k;
    }
  }

  lemma UploadEntriesKeys(admin: Val, owner: Val, group: Val, overwrite: Val, format: Val, responseFormat: Val)
    ensures var es := UploadEntries(admin, owner, group, overwrite, format, responseFormat);
            Distinct(es) && forall i :: 0 <= i < |es| ==> |es[i].key| != 10
  {
  }

  /**
   * `uploadItem`: repository and item key are required; the assignments of
   * `UploadEntries`, then the `property.` update, then a POST of `data` to
   * the path, `&` and the encoded dictionary.
   */
  method UploadItem(repository: Val, itemKey: Val, data: Bytes, admin: Val, owner: Val, group: Val,
                    overwrite: Val, format: Val, responseFormat: Val, properties: map<string, Val>)
    returns (b: Built)
    ensures !Truthy(repository) || !Truthy(itemKey) ==> b == Halt(Error(UploadRequired))
    ensures b.Send? <==> Truthy(repository) && Truthy(itemKey) && forall k :: k in properties ==> |k| == 2
    ensures !b.Send? && Truthy(repository) && Truthy(itemKey) ==> b.Halt? && b.exc.ValueError?
    ensures b.Send? ==>
              && PostOf(b, ItemPath(repository, itemKey, "upload") + "&", data) && WellFormed(b.req)
              && Augmented(b.req.params, UploadEntries(admin, owner, group, overwrite, format, responseFormat),
                           KeyPairs("property.", properties.Keys))
  {
    if !Truthy(repository) || !Truthy(itemKey) {
      return Halt(Error(UploadRequired));
    }
    var es := UploadEntries(admin, owner, group, overwrite, format, responseFormat);
    var params := Assign(map[], es);
    var updated := AddProperties(params, properties);
    if updated.Failure? {
      return Halt(updated.error);
    }
    UploadEntriesKeys(admin, owner, group, overwrite, format, responseFormat);
    PropertyKeys(properties);
    FilledThenAugmented(es, updated.value, KeyPairs("property.", properties.Keys));
    b := PostProper(ItemPath(repository, itemKey, "upload"), updated.value, data);
  }

  /**
   * What an upload sends for `overwrite`: nothing when it is not set,
   * "true" when it is `True`, and "false" for any other set value (such as 1).
   */
  lemma UploadOverwrite(p: Params, admin: Val, owner: Val, group: Val, overwrite: Val, format: Val,
                        responseFormat: Val, properties: map<string, Val>)
    requires Augmented(p, UploadEntries(admin, owner, group, overwrite, format, responseFormat),
                       KeyPairs("property.", properties.Keys))
    ensures "overwrite" in p <==> Truthy(overwrite)
    ensures overwrite == BoolVal(true) ==> p["overwrite"] == "true"
    ensures Truthy(overwrite) && overwrite != BoolVal(true) ==> p["overwrite"] == "false"
    ensures "responseFormat" in p && p["responseFormat"] == Str(responseFormat)
  {
    var es := UploadEntries(admin, owner, group, overwrite, format, responseFormat);
    assert es[3] in es && es[5] in es;
  }

  /** The assignments `repositoryList` and `deleteItem` make, in order. */
  function ItemEntries(owner: Val, group: Val, responseFormat: Val, admin: Val): seq<Entry>
  {
    [IfSet("owner", owner), IfSet("group", group), IfSet("admin", admin), Always("responseFormat", responseFormat)]
  }

  /**
   * `repositoryList` as written: the guard joins its two tests with `and`,
   * so only a call missing BOTH repository and item key is refused; one
   * missing either alone is sent, with "None" (or the falsy value's text)
   * in the path.
   */
  method RepositoryList(repository: Val, itemKey: Val, owner: Val, group: Val, responseFormat: Val, admin: Val)
    returns (b: Built)
    ensures !b.Fail?
    ensures b.Halt? <==> !Truthy(repository) && !Truthy(itemKey)
    ensures b.Halt? ==> b.exc == Error(ListRequired)
    ensures b.Send? ==>
              && GetOf(b, ItemPath(repository, itemKey, "list") + "&") && WellFormed(b.req)
              && Reflects(b.req.params, ItemEntries(owner, group, responseFormat, admin))
  {
    if !Truthy(repository) && !Truthy(itemKey) {
      return Halt(Error(ListRequired));
    }
    var es := ItemEntries(owner, group, responseFormat, admin);
    var params := Assign(map[], es);
    FillReflects(es);
    b := GetProper(ItemPath(repository, itemKey, "list"), params);
  }

  /** A listing with no repository but an item key goes out with "None" in the path. */
  lemma ListWithoutRepository(itemKey: string)
    ensures ItemPath(NoneVal, StrVal(itemKey), "list") == "repositories/None/" + itemKey + "?operation=list"
  {
  }

  /** `repositoryList` as evidently intended: either missing argument is refused. */
  method RepositoryListIntended(repository: Val, itemKey: Val, owner: Val, group: Val, responseFormat: Val,
                                admin: Val)
    returns (b: Built)
    ensures !b.Fail?
    ensures b.Halt? <==> !Truthy(repository) || !Truthy(itemKey)
    ensures b.Halt? ==> b.exc == Error(ListRequired)
    ensures b.Send? ==>
              && GetOf(b, ItemPath(repository, itemKey, "list") + "&") && WellFormed(b.req)
              && Reflects(b.req.params, ItemEntries(owner, group, responseFormat, admin))
  {
    if !Truthy(repository) || !Truthy(itemKey) {
      return Halt(Error(ListRequired));
    }
    var es := ItemEntries(owner, group, responseFormat, admin);
    var params := Assign(map[], es);
    FillReflects(es);
    b := GetProper(ItemPath(repository, itemKey, "list"), params);
  }

  /** `deleteItem`: either missing argument is refused; otherwise a GET of path, `&` and the encoded dictionary. */
  method DeleteItem(repository: Val, itemKey: Val, owner: Val, group: Val, responseFormat: Val, admin: Val)
    returns (b: Built)
    ensures !b.Fail?
    ensures b.Halt? <==> !Truthy(repository) || !Truthy(itemKey)
    ensures b.Halt? ==> b.exc == Error(DeleteRequired)
    ensures b.Send? ==>
              && GetOf(b, ItemPath(repository, itemKey, "delete") + "&") && WellFormed(b.req)
              && Reflects(b.req.params, ItemEntries(owner, group, responseFormat, admin))
  {
    if !Truthy(repository) || !Truthy(itemKey) {
      return Halt(Error(DeleteRequired));
    }
    var es := ItemEntries(owner, group, responseFormat, admin);
    var params := Assign(map[], es);
    FillReflects(es);
    b := GetProper(ItemPath(repository, itemKey, "delete"), params);
  }

  /**
   * The assignments `cleanupRepository` makes, in order.  Its
   * `responseFormat` argument is accepted and never assigned.
   */
  function CleanEntries(owner: Val, group: Val, dryRun: Val, daysToKeep: Val, userStatus: Val, admin: Val): seq<Entry>
  {
    [IfSet("owner", owner), IfSet("group", group), IfSet("dryRun", dryRun),
     Always("lastModified.daysToKeep", daysToKeep), IfSet("userStatus", userStatus), IfSet("admin", admin)]
  }

  /**
   * `cleanupRepository`: the item key is required; the number of days to
   * keep is always sent, the response format never.
   */
  method CleanupRepository(itemKey: Val, daysToKeep: Val, owner: Val, group: Val, dryRun: Val, userStatus: Val,
                           responseFormat: Val, admin: Val)
    returns (b: Built)
    ensures !b.Fail?
    ensures b.Halt? <==> !Truthy(itemKey)
    ensures b.Halt? ==> b.exc == Error(CleanRequired)
    ensures b.Send? ==>
              && GetOf(b, CleanPath(itemKey) + "&") && WellFormed(b.req)
              && Reflects(b.req.params, CleanEntries(owner, group, dryRun, daysToKeep, userStatus, admin))
  {
    if !Truthy(itemKey) {
      return Halt(Error(CleanRequired));
    }
    var es := CleanEntries(owner, group, dryRun, daysToKeep, userStatus, admin);
    var params := Assign(map[], es);
    FillReflects(es);
    b := GetProper(CleanPath(itemKey), params);
  }

  /** A clean-up always sends the number of days to keep and never a response format. */
  lemma CleanupSends(p: Params, owner: Val, group: Val, dryRun: Val, daysToKeep: Val, userStatus: Val, admin: Val)
    requires Reflects(p, CleanEntries(owner, group, dryRun, daysToKeep, userStatus, admin))
    ensures "responseFormat" !in p
    ensures "lastModified.daysToKeep" in p && p["lastModified.daysToKeep"] == Str(daysToKeep)
  {
    var es := CleanEntries(owner, group, dryRun, daysToKeep, userStatus, admin);
    assert es[3] in es;
    Unassigned(es, "responseFormat");
  }

  /*
   * The operations end to end on a resource object `api`: the builder above,
   * then the try/except with the operation's own label.
   */

  /** `uploadItem`: the POST carries `data` only when it is not empty. */
  method UploadItemCall(api: APIBase, repository: Val, itemKey: Val, data: Bytes, admin: Val, owner: Val,
                        group: Val, overwrite: Val, format: Val, responseFormat: Val,
                        properties: map<string, Val>, env: Env)
    returns (b: Built, sent: Option<HttpRequest>, r: Outcome)
    ensures Completes(api, UploadLabel, "", b, env, sent, r)
    ensures !Truthy(repository) || !Truthy(itemKey) ==> sent == None && r == Raise(Error(UploadRequired))
    ensures sent.Some? <==> Truthy(repository) && Truthy(itemKey) && forall k :: k in properties ==> |k| == 2
    ensures sent.Some? ==>
              && PostOf(b, ItemPath(repository, itemKey, "upload") + "&", data)
              && (sent.value.verb == POST <==> |data| > 0)
              && (|data| > 0 ==> sent.value.data == Some(data))
  {
    b := UploadItem(repository, itemKey, data, admin, owner, group, overwrite, format, responseFormat, properties);
    sent, r := api.Call(UploadLabel, "", b, env);
  }

  /** `repositoryList` as written: halts only when both the repository and the item key are missing. */
  method RepositoryListCall(api: APIBase, repository: Val, itemKey: Val, owner: Val, group: Val,
                            responseFormat: Val, admin: Val, env: Env)
    returns (b: Built, sent: Option<HttpRequest>, r: Outcome)
    ensures Completes(api, ListLabel, "", b, env, sent, r)
    ensures !Truthy(repository) && !Truthy(itemKey) ==> sent == None && r == Raise(Error(ListRequired))
    ensures Truthy(repository) || Truthy(itemKey) ==>
              sent.Some? && GetOf(b, ItemPath(repository, itemKey, "list") + "&") &&
              r == WrapOutcome(ListLabel, "", Respond(env))
  {
    b := RepositoryList(repository, itemKey, owner, group, responseFormat, admin);
    sent, r := api.Call(ListLabel, "", b, env);
  }

  /** `deleteItem`: a failure labelled "delete item API call". */
  method DeleteItemCall(api: APIBase, repository: Val, itemKey: Val, owner: Val, group: Val,
                        responseFormat: Val, admin: Val, env: Env)
    returns (b: Built, sent: Option<HttpRequest>, r: Outcome)
    ensures Completes(api, DeleteLabel, "", b, env, sent, r)
    ensures !Truthy(repository) || !Truthy(itemKey) ==> sent == None && r == Raise(Error(DeleteRequired))
    ensures Truthy(repository) && Truthy(itemKey) ==>
              sent.Some? && GetOf(b, ItemPath(repository, itemKey, "delete") + "&") &&
              r == WrapOutcome(DeleteLabel, "", Respond(env))
  {
    b := DeleteItem(repository, itemKey, owner, group, responseFormat, admin);
    sent, r := api.Call(DeleteLabel, "", b, env);
  }

  /** `cleanupRepository`: a failure labelled "clean up repository API call". */
  method CleanupRepositoryCall(api: APIBase, itemKey: Val, daysToKeep: Val, owner: Val, group: Val, dryRun: Val,
                               userStatus: Val, responseFormat: Val, admin: Val, env: Env)
    returns (b: Built, sent: Option<HttpRequest>, r: Outcome)
    ensures Completes(api, CleanLabel, "", b, env, sent, r)
    ensures !Truthy(itemKey) ==> sent == None && r == Raise(Error(CleanRequired))
    ensures Truthy(itemKey) ==>
              sent.Some? && GetOf(b, CleanPath(itemKey) + "&") && r == WrapOutcome(CleanLabel, "", Respond(env))
  {
    b := CleanupRepository(itemKey, daysToKeep, owner, group, dryRun, userStatus, responseFormat, admin);
    sent, r := api.Call(CleanLabel, "", b, env);
  }
}
