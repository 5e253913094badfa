/**
 * The "Share Suggestions" button of src/components/PageToolbar.tsx: refuse an
 * empty list, send the whole list serialised under a fresh id, and on success
 * build the share link from the current URL. `serialize` stands for
 * `JSON.stringify`, `newId` for the random id, and `backendUp` for whether the
 * save call returns normally.
 */
module PageToolbar {
  import opened Wrappers
  import opened AnnotationTypes
  import opened QueryParams
  import AnnotationStore

  /** The mutation's arguments. */
  datatype SaveRequest = SaveRequest(resumeId: string, shapes: string)

  /** The two error toasts. */
  datatype Notice = NoSuggestions | SaveFailed

  /**
   * The external page: the first non-empty one of `page`, `target` and `url`.
   * When none is filled the chain yields the `url` value itself, which may be "".
   */
  function ExternalPage(ps: seq<Param>): (r: Option<string>)
    ensures Filled(Get(ps, "page")) ==> r == Get(ps, "page")
    ensures !Filled(Get(ps, "page")) && Filled(Get(ps, "target")) ==> r == Get(ps, "target")
    ensures !Filled(Get(ps, "page")) && !Filled(Get(ps, "target")) ==> r == Get(ps, "url")
    ensures Filled(r) <==> Filled(Get(ps, "page")) || Filled(Get(ps, "target")) || Filled(Get(ps, "url"))
  {
    Or(Or(Get(ps, "page"), Get(ps, "target")), Get(ps, "url"))
  }

  /** The query of the share link: normalise the external page to `page`, then set `id`. */
  function ShareQuery(ps: seq<Param>, newId: string): seq<Param> {
    var ext := ExternalPage(ps);
    var normalised :=
      if Filled(ext) then Delete(Delete(Set(ps, "page", ext.value), "target"), "url") else ps;
    Set(normalised, "id", newId)
  }

  /**
   * The share link carries the fresh id; when an external page exists it is
   * under `page` and neither `target` nor `url` remains; otherwise the query
   * is the old one with only `id` set.
   */
  lemma ShareQueryProperties(ps: seq<Param>, newId: string)
    ensures Get(ShareQuery(ps, newId), "id") == Some(newId)
    ensures Single(ShareQuery(ps, newId), "id", newId)
    ensures Filled(ExternalPage(ps)) ==>
      && Get(ShareQuery(ps, newId), "page") == ExternalPage(ps)
      && !Has(ShareQuery(ps, newId), "target")
      && !Has(ShareQuery(ps, newId), "url")
    ensures !Filled(ExternalPage(ps)) ==> ShareQuery(ps, newId) == Set(ps, "id", newId)
  {
    var ext := ExternalPage(ps);
    SetProperties(if Filled(ext) then Delete(Delete(Set(ps, "page", ext.value), "target"), "url") else ps, "id", newId);
    if Filled(ext) {
      var q0 := Set(ps, "page", ext.value);
      var q := Delete(Delete(q0, "target"), "url");
      SetProperties(ps, "page", ext.value);
      GetAfterDelete(q0, "target", "page");
      GetAfterDelete(Delete(q0, "target"), "url", "page");
      GetAfterSet(q, "id", newId, "page");
      HasAfterSet(q, "id", newId, "target");
      HasAfterSet(q, "id", newId, "url");
      DeleteCommutes(q0, "target", "url");
      DeleteAbsent(q, "target");
    }
  }

  /** `set` does not add pairs under any other name. */
  lemma HasAfterSet(ps: seq<Param>, name: string, value: string, other: string)
    requires other != name
    ensures Has(Set(ps, name, value), other) <==> Has(ps, other)
  {
    GetAfterSet(ps, name, value, other);
  }

  /** What one press of the button does, as values. */
  datatype SaveOutcome = SaveOutcome(request: Option<SaveRequest>, notice: Option<Notice>, link: Option<Url>)

  /**
   * `handleSave`: an empty list shows a notice and sends nothing; otherwise
   * the whole list is sent under `newId`; a failed save shows a notice and
   * leaves the link alone, a successful one yields the share link.
   */
  function Save(shapes: seq<Shape>, newId: string, current: Url, serialize: seq<Shape> -> string,
                backendUp: bool, link: Option<Url>): (r: SaveOutcome)
    ensures |shapes| == 0 <==> r.request.None?
    ensures r.request.Some? ==> r.request.value == SaveRequest(newId, serialize(shapes))
    ensures r.notice.None? <==> |shapes| > 0 && backendUp
    ensures r.notice.None? ==> r.link == Some(Url(current.base, ShareQuery(current.query, newId)))
    ensures r.notice.Some? ==> r.link == link
  {
    if |shapes| == 0 then SaveOutcome(None, Some(NoSuggestions), link)
    else
      var request := SaveRequest(newId, serialize(shapes));
      if !backendUp then SaveOutcome(Some(request), Some(SaveFailed), link)
      else SaveOutcome(Some(request), None, Some(Url(current.base, ShareQuery(current.query, newId))))
  }

  /** The toolbar's `savedLink` state; the modal is open while it holds a link. */
  class Toolbar {
    var savedLink: Option<Url>

    constructor ()
      ensures savedLink.None?
    {
      savedLink := None;
    }

    /**
     * `handleSave`, with the mutation applied to `table` at time `now` when the
     * backend is up. The query is rewritten step by step as the source does.
     */
    method HandleSave(shapes: seq<Shape>, newId: string, current: Url, serialize: seq<Shape> -> string,
                      backendUp: bool, table: AnnotationStore.AnnotationTable, now: int)
      returns (request: Option<SaveRequest>, notice: Option<Notice>)
      requires table.Valid()
      modifies this, table
      ensures table.Valid()
      ensures Save(shapes, newId, current, serialize, backendUp, old(savedLink))
           == SaveOutcome(request, notice, savedLink)
      ensures request.Some? && backendUp ==>
        table.rows == AnnotationStore.Upsert(old(table.rows), old(table.nextId), newId, request.value.shapes, now)
      ensures request.Some? && backendUp ==>
        table.nextId == AnnotationStore.NextIdAfter(old(table.rows), old(table.nextId), newId)
      ensures request.None? || !backendUp ==> unchanged(table)
    {
      if |shapes| == 0 {
        notice := Some(NoSuggestions);
        request := None;
        return;
      }
      request := Some(SaveRequest(newId, serialize(shapes)));
      if !backendUp {
        notice := Some(SaveFailed);
        return;
      }
      table.Save(newId, serialize(shapes), now);
      var query := current.query;
      var externalUrl := ExternalPage(query);
      if Filled(externalUrl) {
        query := Set(query, "page", externalUrl.value);
        query := Delete(query, "target");
        query := Delete(query, "url");
      }
      query := Set(query, "id", newId);
      savedLink := Some(Url(current.base, query));
      notice := None;
    }

    /** The modal's Close button. */
    method Close()
      modifies this
      ensures savedLink.None?
    {
      savedLink := None;
    }
  }
}
