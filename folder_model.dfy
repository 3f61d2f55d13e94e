/** The values the folder store keeps, and the pure parts of its actions: the
    well-formedness filter applied to the server's folder list, the lookup by id,
    the freshness rule of the link cache, what one link fetch does to the cache,
    and how the selection is reconciled after the list changes. */
module FolderModel {
  import opened Api
  import Seqs

  /** A property of a raw server object: missing (`undefined`), `null`, or a value.
      A `name` that is present but not a string is represented by `Null`: the
      filter treats both alike. */
  datatype JsField<+T> = Undefined | Null | Value(v: T)

  /** One entry of the array `GET /api/folders` returns; `NullEntry` is a falsy entry. */
  datatype RawFolder =
    | NullEntry
    | Entry(id: JsField<string>, name: JsField<string>, description: JsField<string>)

  /** The data of a `GET /api/folders` response: an array, or anything else. */
  datatype FolderPayload = FolderArray(entries: seq<RawFolder>) | NotArray

  /** A folder as the store keeps it; a `null` description is `None`. */
  datatype Folder = Folder(id: string, name: string, description: Option<string>)

  /** A link as the store keeps it in the link cache. */
  datatype Link = Link(id: string, title: string, url: string, note: string, folderId: string)

  function FolderKey(f: Folder): string { f.id }

  function LinkKey(l: Link): string { l.id }

  /** The characters `String.prototype.trim` removes: ECMAScript WhiteSpace and
      LineTerminator. */
  predicate IsJsWhitespace(c: char) {
    || c == '\t' || c == '\n' || c == '\U{000B}' || c == '\U{000C}' || c == '\r'
    || c == ' ' || c == '\U{00A0}' || c == '\U{1680}'
    || ('\U{2000}' <= c <= '\U{200A}')
    || c == '\U{2028}' || c == '\U{2029}' || c == '\U{202F}' || c == '\U{205F}'
    || c == '\U{3000}' || c == '\U{FEFF}'
  }

  /** `s.trim() === ''` */
  predicate IsBlank(s: string) {
    forall i :: 0 <= i < |s| ==> IsJsWhitespace(s[i])
  }

  /** The filter predicate of `fetchAllFolders`: a truthy `_id`, a string `name`
      that is not blank, and a `description` that is not `undefined`. */
  predicate Keep(raw: RawFolder) {
    && raw.Entry?
    && raw.id.Value? && raw.id.v != ""
    && raw.name.Value? && !IsBlank(raw.name.v)
    && !raw.description.Undefined?
  }

  /** A folder that passed the filter. */
  predicate WellFormed(f: Folder) {
    f.id != "" && !IsBlank(f.name)
  }

  function ToFolder(raw: RawFolder): (f: Folder)
    requires Keep(raw)
    ensures WellFormed(f)
    ensures f.id == raw.id.v && f.name == raw.name.v
    ensures f.description == if raw.description.Null? then None else Some(raw.description.v)
  {
    Folder(raw.id.v, raw.name.v, if raw.description.Null? then None else Some(raw.description.v))
  }

  /** `response.data.filter(...)`: the kept entries, in order. */
  function FilterFolders(raws: seq<RawFolder>): (r: seq<Folder>)
    ensures |r| <= |raws|
    ensures forall f :: f in r ==> WellFormed(f)
  {
    if raws == [] then []
    else if Keep(raws[0]) then [ToFolder(raws[0])] + FilterFolders(raws[1..])
    else FilterFolders(raws[1..])
  }

  /** A folder is in the filtered list exactly when some entry that passes the
      filter denotes it. */
  lemma {:induction false} FilterFoldersMembers(raws: seq<RawFolder>, f: Folder)
    ensures f in FilterFolders(raws) <==> exists i :: 0 <= i < |raws| && Keep(raws[i]) && ToFolder(raws[i]) == f
  {
    if raws != [] {
      FilterFoldersMembers(raws[1..], f);
      if f in FilterFolders(raws[1..]) {
        var i :| 0 <= i < |raws[1..]| && Keep(raws[1..][i]) && ToFolder(raws[1..][i]) == f;
        assert raws[i + 1] == raws[1..][i];
      }
      if exists i :: 0 <= i < |raws| && Keep(raws[i]) && ToFolder(raws[i]) == f {
        var i :| 0 <= i < |raws| && Keep(raws[i]) && ToFolder(raws[i]) == f;
        if i > 0 {
          assert raws[1..][i - 1] == raws[i];
        }
      }
    }
  }

  /** The filter keeps order: it distributes over concatenation, and on a single
      entry it keeps it (converted) or drops it. */
  lemma {:induction false} FilterFoldersAppend(a: seq<RawFolder>, b: seq<RawFolder>)
    ensures FilterFolders(a + b) == FilterFolders(a) + FilterFolders(b)
  {
    if a == [] {
      assert a + b == b;
    } else {
      assert (a + b)[0] == a[0];
      assert (a + b)[1..] == a[1..] + b;
      FilterFoldersAppend(a[1..], b);
    }
  }

  lemma FilterFoldersSingle(raw: RawFolder)
    ensures FilterFolders([raw]) == if Keep(raw) then [ToFolder(raw)] else []
  {
  }

  /** Getter `getFolderById`: `folders.find(folder => folder._id === id)`. A `null`
      id matches no folder, since every kept folder has a string id. */
  function FindById(folders: seq<Folder>, id: Option<string>): (r: Option<Folder>)
    ensures r.Some? ==> id.Some? && r.value in folders && r.value.id == id.value
    ensures r.None? <==> id.None? || forall f :: f in folders ==> f.id != id.value
  {
    if id.None? then None
    else
      Seqs.FindIndexSpec(folders, FolderKey, id.value);
      var i := Seqs.FindIndex(folders, FolderKey, id.value);
      if i == -1 then None else Some(folders[i])
  }

  /** The folder found is the first one with the id: every folder before it has
      another id. */
  lemma FindByIdIsFirst(folders: seq<Folder>, id: string)
    requires FindById(folders, Some(id)).Some?
    ensures exists i :: 0 <= i < |folders| && folders[i] == FindById(folders, Some(id)).value
                        && forall j :: 0 <= j < i ==> folders[j].id != id
  {
    Seqs.FindIndexSpec(folders, FolderKey, id);
    var i := Seqs.FindIndex(folders, FolderKey, id);
    assert folders[i] == FindById(folders, Some(id)).value;
  }

  /** `folders.length > 0 ? folders[0]._id : null` */
  function FirstId(folders: seq<Folder>): (id: Option<string>)
    ensures folders == [] <==> id.None?
    ensures folders != [] ==> id == Some(folders[0].id)
  {
    if folders == [] then None else Some(folders[0].id)
  }

  /** What `fetchAllFolders` does to the selection once the list is replaced. */
  datatype Reselection = KeepSelection | Select(id: Option<string>)

  function Reselect(folders: seq<Folder>, selected: Option<string>): (r: Reselection)
    ensures folders != [] && !Truthy(selected) ==> r == Select(Some(folders[0].id))
    ensures Truthy(selected) && FindById(folders, selected).None? ==> r == Select(FirstId(folders))
    ensures Truthy(selected) && FindById(folders, selected).Some? ==> r == KeepSelection
    ensures folders == [] && !Truthy(selected) ==> r == KeepSelection
  {
    if |folders| > 0 && !Truthy(selected) then Select(Some(folders[0].id))
    else if Truthy(selected) && FindById(folders, selected).None? then Select(FirstId(folders))
    else KeepSelection
  }

  /** After reconciliation a truthy selection always names a folder of the list,
      and a list of well-formed folders never leaves a falsy selection behind
      unless it is empty. */
  lemma ReselectResolves(folders: seq<Folder>, selected: Option<string>)
    requires forall f :: f in folders ==> WellFormed(f)
    ensures var after := if Reselect(folders, selected).Select? then Reselect(folders, selected).id else selected;
            && (Truthy(after) ==> FindById(folders, after).Some?)
            && (folders != [] ==> Truthy(after))
  {
    var after := if Reselect(folders, selected).Select? then Reselect(folders, selected).id else selected;
    if Reselect(folders, selected).Select? && folders != [] {
      assert folders[0] in folders;
      assert FindById(folders, after).Some?;
    }
  }

  /** Deleting the folders with one id does not change which folder another id
      resolves to. */
  lemma FindByIdAfterRemove(folders: seq<Folder>, removed: string, id: Option<string>)
    requires id != Some(removed)
    ensures FindById(Seqs.FilterOut(folders, FolderKey, removed), id) == FindById(folders, id)
  {
    if id.Some? {
      Seqs.FindIndexAfterFilterOut(folders, FolderKey, removed, id.value);
    }
  }

  /** The folder a successful `createFolder` appends is found by its id. */
  lemma FindByIdAfterAppend(folders: seq<Folder>, f: Folder)
    ensures FindById(folders + [f], Some(f.id))
            == if FindById(folders, Some(f.id)).None? then Some(f) else FindById(folders, Some(f.id))
  {
    Seqs.FindIndexAfterAppend(folders, f, FolderKey);
  }

  /** Replacing the first folder with id `id` by a folder with the same id makes
      the lookup of `id` return the new folder. */
  lemma FindByIdAfterReplace(folders: seq<Folder>, id: string, f: Folder)
    requires f.id == id
    requires 0 <= Seqs.FindIndex(folders, FolderKey, id)
    ensures FindById(folders[Seqs.FindIndex(folders, FolderKey, id) := f], Some(id)) == Some(f)
  {
    Seqs.FindIndexAfterReplace(folders, FolderKey, id, f);
  }

  /** Replacing a folder by one with the same id does not change what any other
      id resolves to. */
  lemma FindByIdAfterReplaceOther(folders: seq<Folder>, i: int, f: Folder, id: Option<string>)
    requires 0 <= i < |folders| && folders[i].id == f.id
    requires id != Some(f.id)
    ensures FindById(folders[i := f], id) == FindById(folders, id)
  {
    if id.Some? {
      Seqs.FindIndexSameKeys(folders[i := f], folders, FolderKey, id.value);
    }
  }

  /** The folder list after `updateFolder(id)` succeeds with folder `f`: the
      first folder with that id is replaced. */
  function UpdatedFolders(folders: seq<Folder>, id: string, f: Folder): (r: seq<Folder>)
    ensures |r| == |folders|
  {
    var i := Seqs.FindIndex(folders, FolderKey, id);
    if 0 <= i then folders[i := f] else folders
  }

  /** The selected-folder pointer after `updateFolder(id)` succeeds with `f`: it
      becomes `f` when a folder with the id was found and that id is selected. */
  function UpdatedSelection(folders: seq<Folder>, selectedId: Option<string>, selected: Option<Folder>,
                            id: string, f: Folder): (r: Option<Folder>)
    ensures r != selected ==> selectedId == Some(id) && r == Some(f)
    ensures selectedId == Some(id) && FindById(folders, selectedId).Some? ==> r == Some(f)
  {
    if 0 <= Seqs.FindIndex(folders, FolderKey, id) && selectedId == Some(id) then Some(f) else selected
  }

  /** Only the replaced folder changes: every other position keeps its folder. */
  lemma UpdatedFoldersElsewhere(folders: seq<Folder>, id: string, f: Folder, k: int)
    requires 0 <= k < |folders| && folders[k].id != id
    ensures UpdatedFolders(folders, id, f)[k] == folders[k]
  {
    Seqs.FindIndexSpec(folders, FolderKey, id);
  }

  /** `updateFolder` with a response that keeps the folder's id keeps the
      selected-folder pointer equal to what the selected id resolves to. */
  lemma UpdateKeepsSelection(folders: seq<Folder>, selectedId: Option<string>, selected: Option<Folder>,
                             id: string, f: Folder)
    requires f.id == id && selected == FindById(folders, selectedId)
    ensures UpdatedSelection(folders, selectedId, selected, id, f) == FindById(UpdatedFolders(folders, id, f), selectedId)
  {
    Seqs.FindIndexSpec(folders, FolderKey, id);
    var i := Seqs.FindIndex(folders, FolderKey, id);
    if 0 <= i {
      if selectedId == Some(id) {
        FindByIdAfterReplace(folders, id, f);
      } else {
        FindByIdAfterReplaceOther(folders, i, f, selectedId);
      }
    }
  }

  // ---------------------------------------------------------------------------
  // Link cache

  /** Length of the freshness window, in milliseconds (five minutes). */
  const FreshnessWindow: int := 300000

  /** `lastFetched[id] && now - lastFetched[id] < 300000`: a timestamp of 0 is
      falsy and therefore never fresh. */
  predicate IsFresh(lastFetched: map<string, int>, id: string, now: int) {
    id in lastFetched && lastFetched[id] != 0 && now - lastFetched[id] < FreshnessWindow
  }

  /** Whether `fetchLinksByFolder(id)` at time `now` sends a request. */
  predicate LinkFetchRequested(lastFetched: map<string, int>, id: Option<string>, now: int) {
    Truthy(id) && !IsFresh(lastFetched, id.value, now)
  }

  /** The request log entries of `fetchLinksByFolder(id)`. */
  function LinkRequests(lastFetched: map<string, int>, id: Option<string>, now: int): (r: seq<Request>)
    ensures |r| <= 1
    ensures r != [] <==> LinkFetchRequested(lastFetched, id, now)
    ensures r != [] ==> r[0] == GetLinks(id.value)
  {
    if LinkFetchRequested(lastFetched, id, now) then [GetLinks(id.value)] else []
  }

  /** The `links` map after `fetchLinksByFolder(id)`: the fetched data (or `[]`) on
      success, `[]` on failure, and unchanged when no request was sent. */
  function LinksAfterFetch(links: map<string, seq<Link>>, lastFetched: map<string, int>,
                           id: Option<string>, resp: Outcome<Option<seq<Link>>>, now: int): (r: map<string, seq<Link>>)
    ensures !LinkFetchRequested(lastFetched, id, now) ==> r == links
    ensures LinkFetchRequested(lastFetched, id, now) ==>
      r.Keys == links.Keys + {id.value} && r[id.value] == (if resp.Ok? then resp.value.GetOr([]) else [])
  {
    if !LinkFetchRequested(lastFetched, id, now) then links
    else match resp
      case Ok(data) => links[id.value := data.GetOr([])]
      case Err(_) => links[id.value := []]
  }

  /** The `lastFetched` map after `fetchLinksByFolder(id)`: stamped with `now` only
      after a successful request. */
  function StampsAfterFetch(lastFetched: map<string, int>, id: Option<string>,
                            resp: Outcome<Option<seq<Link>>>, now: int): (r: map<string, int>)
    ensures LinkFetchRequested(lastFetched, id, now) && resp.Ok? ==> r == lastFetched[id.value := now]
    ensures !(LinkFetchRequested(lastFetched, id, now) && resp.Ok?) ==> r == lastFetched
  {
    if LinkFetchRequested(lastFetched, id, now) && resp.Ok? then lastFetched[id.value := now]
    else lastFetched
  }

  /** What `fetchLinksByFolder(id)` returns or throws: `undefined` (here `Ok(None)`)
      for a falsy id, the cached sequence (or `[]`) when fresh, and otherwise the
      response data or the transport error. */
  function FetchResult(links: map<string, seq<Link>>, lastFetched: map<string, int>,
                       id: Option<string>, resp: Outcome<Option<seq<Link>>>, now: int): (r: Outcome<Option<seq<Link>>>)
    ensures !Truthy(id) ==> r == Ok(None)
    ensures Truthy(id) && IsFresh(lastFetched, id.value, now) ==>
      r == Ok(Some(if id.value in links then links[id.value] else []))
    ensures LinkFetchRequested(lastFetched, id, now) ==> r == resp
  {
    if !Truthy(id) then Ok(None)
    else if IsFresh(lastFetched, id.value, now) then Ok(Some(if id.value in links then links[id.value] else []))
    else resp
  }

  /** The error `fetchLinksByFolder(id)` throws, if any. */
  function FetchError(lastFetched: map<string, int>, id: Option<string>,
                      resp: Outcome<Option<seq<Link>>>, now: int): (e: Option<Failure>)
    ensures e.Some? <==> LinkFetchRequested(lastFetched, id, now) && resp.Err?
    ensures e.Some? ==> e.value == resp.failure
  {
    if LinkFetchRequested(lastFetched, id, now) then resp.Thrown() else None
  }

  /** The `links` map after `setSelectedFolder(id)`: a falsy id empties it. */
  function LinksAfterSelect(links: map<string, seq<Link>>, lastFetched: map<string, int>,
                            id: Option<string>, resp: Outcome<Option<seq<Link>>>, now: int): (r: map<string, seq<Link>>)
    ensures !Truthy(id) ==> r == map[]
    ensures Truthy(id) ==> r == LinksAfterFetch(links, lastFetched, id, resp, now)
  {
    if Truthy(id) then LinksAfterFetch(links, lastFetched, id, resp, now) else map[]
  }

  /** A link fetch touches only its own folder's entries: every other key keeps
      its links and its timestamp. */
  lemma FetchTouchesOnlyItsKey(links: map<string, seq<Link>>, lastFetched: map<string, int>,
                               id: Option<string>, resp: Outcome<Option<seq<Link>>>, now: int, other: string)
    requires id != Some(other)
    ensures var l := LinksAfterFetch(links, lastFetched, id, resp, now);
            (other in l <==> other in links) && (other in links ==> l[other] == links[other])
    ensures var t := StampsAfterFetch(lastFetched, id, resp, now);
            (other in t <==> other in lastFetched) && (other in lastFetched ==> t[other] == lastFetched[other])
  {
  }

  /** After a fetch that sent a request, the folder is "loaded", with an empty
      sequence if the request failed, so it is distinguishable from "never loaded". */
  lemma RequestedFetchLeavesEntry(links: map<string, seq<Link>>, lastFetched: map<string, int>,
                                  id: Option<string>, resp: Outcome<Option<seq<Link>>>, now: int)
    requires LinkFetchRequested(lastFetched, id, now)
    ensures id.value in LinksAfterFetch(links, lastFetched, id, resp, now)
    ensures resp.Err? ==> LinksAfterFetch(links, lastFetched, id, resp, now)[id.value] == []
    ensures resp.Err? ==> StampsAfterFetch(lastFetched, id, resp, now) == lastFetched
  {
  }

  /** Two fetches of one folder within the freshness window send one request:
      after a successful request at a non-zero `now`, a second fetch at any
      `later < now + 300000` is answered from the cache with the data the first
      one stored. */
  lemma SecondFetchIsCached(links: map<string, seq<Link>>, lastFetched: map<string, int>,
                            id: string, resp: Outcome<Option<seq<Link>>>, now: int,
                            resp2: Outcome<Option<seq<Link>>>, later: int)
    requires id != "" && now != 0 && later < now + FreshnessWindow
    requires LinkFetchRequested(lastFetched, Some(id), now) && resp.Ok?
    ensures var stamps := StampsAfterFetch(lastFetched, Some(id), resp, now);
            var cached := LinksAfterFetch(links, lastFetched, Some(id), resp, now);
            && !LinkFetchRequested(stamps, Some(id), later)
            && FetchResult(cached, stamps, Some(id), resp2, later) == Ok(Some(resp.value.GetOr([])))
  {
  }
}
