/** The folder store: the folder list, the selected folder, the per-folder link
    cache with its fetch timestamps, and the actions that change them. Every
    request's outcome is a parameter, as is the clock reading `now`; each action
    runs to completion with the outcomes it is given. */
module FolderStore {
  import opened Api
  import opened FolderModel
  import Seqs

  const CreateFailed: string := "创建失败"
  const UpdateFailed: string := "更新失败"
  const DeleteFailed: string := "删除失败"
  const AddFailed: string := "添加失败"
  /** Returned by the link actions when no folder is selected. */
  const NoFolderSelected: string := "未选择收藏夹"
  /** What `currentFolderName` shows when no folder is selected. */
  const NoFolderName: string := "未选择收藏夹"
  /** What `currentFolderDescription` shows when no folder is selected. */
  const NoFolderDescription: string := "请在左侧选择一个收藏夹。"

  class Store {
    var folders: seq<Folder>
    var selectedFolderId: Option<string>
    /** Stored separately from `selectedFolderId`; meant to be the folder it names. */
    var selectedFolder: Option<Folder>
    var loadingFolders: bool
    /** Link cache: folder id to that folder's links. */
    var links: map<string, seq<Link>>
    var loadingLinks: bool
    /** Folder id to the time of the last successful link fetch. */
    var lastFetched: map<string, int>
    /** The requests this store has sent, oldest first. */
    ghost var requests: seq<Request>

    /** The selected-folder pointer is the folder the selected id resolves to. */
    ghost predicate SelectionConsistent()
      reads this
    {
      selectedFolder == FindById(folders, selectedFolderId)
    }

    /** A truthy selected id names a folder of the list. */
    ghost predicate SelectionResolves()
      reads this
    {
      Truthy(selectedFolderId) ==> FindById(folders, selectedFolderId).Some?
    }

    /** The initial `state()`. */
    constructor ()
      ensures folders == [] && selectedFolderId == None && selectedFolder == None
      ensures !loadingFolders && !loadingLinks && links == map[] && lastFetched == map[]
      ensures requests == []
      ensures SelectionConsistent()
    {
      folders := [];
      selectedFolderId := None;
      selectedFolder := None;
      loadingFolders := false;
      links := map[];
      loadingLinks := false;
      lastFetched := map[];
      requests := [];
    }

    /** Getter `currentFolderName`. */
    function CurrentFolderName(): (name: string)
      reads this
      ensures selectedFolder.Some? ==> name == selectedFolder.value.name
      ensures selectedFolder.None? ==> name == NoFolderName
    {
      if selectedFolder.Some? then selectedFolder.value.name else NoFolderName
    }

    /** Getter `currentFolderDescription`: the selected folder's description, which
        may itself be `null`. */
    function CurrentFolderDescription(): (d: Option<string>)
      reads this
      ensures selectedFolder.Some? ==> d == selectedFolder.value.description
      ensures selectedFolder.None? ==> d == Some(NoFolderDescription)
    {
      if selectedFolder.Some? then selectedFolder.value.description else Some(NoFolderDescription)
    }

    /** Getter `currentFolderLinks`: the cached links of the selected folder, and
        `[]` when nothing is selected or its links were never loaded. */
    function CurrentFolderLinks(): (r: seq<Link>)
      reads this
      ensures r != [] ==> Truthy(selectedFolderId) && selectedFolderId.value in links
                          && r == links[selectedFolderId.value]
      ensures Truthy(selectedFolderId) && selectedFolderId.value in links ==> r == links[selectedFolderId.value]
    {
      if Truthy(selectedFolderId) && selectedFolderId.value in links then links[selectedFolderId.value] else []
    }

    /** The in-flight guard and flag of `fetchAllFolders`: a call made while one is
        outstanding does nothing. */
    method BeginFetchAllFolders() returns (started: bool)
      modifies this`loadingFolders
      ensures started == !old(loadingFolders)
      ensures loadingFolders
    {
      if loadingFolders {
        started := false;
        return;
      }
      loadingFolders := true;
      started := true;
    }

    /** What the body of `fetchAllFolders` does to the store, from the state it
        found when it passed the guard. */
    twostate predicate FoldersFetched(resp: Outcome<FolderPayload>, linkResp: Outcome<Option<seq<Link>>>, now: int)
      reads this
    {
      && !loadingFolders
      && match resp
        case Err(_) =>
          && folders == old(folders) && selectedFolderId == old(selectedFolderId)
          && selectedFolder == old(selectedFolder) && links == old(links)
          && lastFetched == old(lastFetched) && loadingLinks == old(loadingLinks)
          && requests == old(requests) + [GetFolders]
        case Ok(NotArray) =>
          && folders == [] && selectedFolderId == old(selectedFolderId)
          && selectedFolder == old(selectedFolder) && links == old(links)
          && lastFetched == old(lastFetched) && loadingLinks == old(loadingLinks)
          && requests == old(requests) + [GetFolders]
        case Ok(FolderArray(raws)) =>
          && folders == FilterFolders(raws)
          && match Reselect(FilterFolders(raws), old(selectedFolderId))
            case KeepSelection =>
              && selectedFolderId == old(selectedFolderId) && selectedFolder == old(selectedFolder)
              && links == old(links) && lastFetched == old(lastFetched)
              && loadingLinks == old(loadingLinks)
              && requests == old(requests) + [GetFolders]
            case Select(id) =>
              && selectedFolderId == id && selectedFolder == FindById(folders, id)
              && links == LinksAfterSelect(old(links), old(lastFetched), id, linkResp, now)
              && lastFetched == StampsAfterFetch(old(lastFetched), id, linkResp, now)
              && loadingLinks == (if LinkFetchRequested(old(lastFetched), id, now) then false else old(loadingLinks))
              && requests == old(requests) + [GetFolders] + LinkRequests(old(lastFetched), id, now)
    }

    /** The body of `fetchAllFolders` after the guard. The selection it makes is
        not awaited, so a failure of that link fetch is not caught here and
        changes nothing but the link cache. */
    method CompleteFetchAllFolders(resp: Outcome<FolderPayload>, linkResp: Outcome<Option<seq<Link>>>, now: int)
      requires loadingFolders
      modifies this
      ensures FoldersFetched(resp, linkResp, now)
      ensures resp.Ok? && resp.value.FolderArray? ==> SelectionResolves()
      ensures resp.Ok? && resp.value.FolderArray? ==> forall f :: f in folders ==> WellFormed(f)
      ensures (resp.Ok? && resp.value.FolderArray?
               && Reselect(FilterFolders(resp.value.entries), old(selectedFolderId)).Select?) ==> SelectionConsistent()
    {
      requests := requests + [GetFolders];
      match resp {
        case Err(_) =>
        case Ok(NotArray) =>
          folders := [];
        case Ok(FolderArray(raws)) =>
          folders := FilterFolders(raws);
          ReselectResolves(folders, selectedFolderId);
          if |folders| > 0 && !Truthy(selectedFolderId) {
            var _ := SetSelectedFolder(Some(folders[0].id), linkResp, now);
          } else if Truthy(selectedFolderId) && FindById(folders, selectedFolderId).None? {
            var _ := SetSelectedFolder(FirstId(folders), linkResp, now);
          }
      }
      loadingFolders := false;
    }

    /** `fetchAllFolders`: the guard, then the body. */
    method FetchAllFolders(resp: Outcome<FolderPayload>, linkResp: Outcome<Option<seq<Link>>>, now: int)
      modifies this
      ensures old(loadingFolders) ==> unchanged(this)
      ensures !old(loadingFolders) ==> FoldersFetched(resp, linkResp, now)
      ensures !old(loadingFolders) ==> !loadingFolders
    {
      var started := BeginFetchAllFolders();
      if started {
        CompleteFetchAllFolders(resp, linkResp, now);
      }
    }

    /** `setSelectedFolder(id)`: sets the id and the pointer together, then loads
        the folder's links, or empties the whole link cache for a falsy id. Returns
        the error the link fetch throws, if any. */
    method SetSelectedFolder(id: Option<string>, linkResp: Outcome<Option<seq<Link>>>, now: int)
      returns (err: Option<Failure>)
      modifies this
      ensures selectedFolderId == id && selectedFolder == FindById(folders, id)
      ensures SelectionConsistent()
      ensures folders == old(folders) && loadingFolders == old(loadingFolders)
      ensures links == LinksAfterSelect(old(links), old(lastFetched), id, linkResp, now)
      ensures lastFetched == StampsAfterFetch(old(lastFetched), id, linkResp, now)
      ensures loadingLinks == (if LinkFetchRequested(old(lastFetched), id, now) then false else old(loadingLinks))
      ensures requests == old(requests) + LinkRequests(old(lastFetched), id, now)
      ensures err == FetchError(old(lastFetched), id, linkResp, now)
    {
      selectedFolderId := id;
      selectedFolder := FindById(folders, id);
      if Truthy(id) {
        var r := FetchLinksByFolder(id, linkResp, now);
        err := r.Thrown();
      } else {
        links := map[];
        err := None;
      }
    }

    /** `fetchLinksByFolder(id)`: nothing for a falsy id, the cached links while
        they are fresh, and otherwise a request whose result replaces the
        folder's entry (with `[]` on failure, when the error is re-thrown). */
    method FetchLinksByFolder(id: Option<string>, resp: Outcome<Option<seq<Link>>>, now: int)
      returns (r: Outcome<Option<seq<Link>>>)
      modifies this
      ensures folders == old(folders) && loadingFolders == old(loadingFolders)
      ensures selectedFolderId == old(selectedFolderId) && selectedFolder == old(selectedFolder)
      ensures links == LinksAfterFetch(old(links), old(lastFetched), id, resp, now)
      ensures lastFetched == StampsAfterFetch(old(lastFetched), id, resp, now)
      ensures loadingLinks == (if LinkFetchRequested(old(lastFetched), id, now) then false else old(loadingLinks))
      ensures requests == old(requests) + LinkRequests(old(lastFetched), id, now)
      ensures r == FetchResult(old(links), old(lastFetched), id, resp, now)
    {
      if !Truthy(id) {
        return Ok(None);
      }
      var key := id.value;
      if IsFresh(lastFetched, key, now) {
        return Ok(Some(if key in links then links[key] else []));
      }
      loadingLinks := true;
      requests := requests + [GetLinks(key)];
      match resp {
        case Ok(data) =>
          links := links[key := data.GetOr([])];
          lastFetched := lastFetched[key := now];
        case Err(_) =>
          links := links[key := []];
      }
      loadingLinks := false;
      r := resp;
    }

    /** `createFolder(formData)`: after the server confirms, appends its folder and
        selects it. A failure of that selection's link fetch is caught too, so the
        action then reports failure although the folder was added. */
    method CreateFolder(resp: Outcome<Folder>, linkResp: Outcome<Option<seq<Link>>>, now: int)
      returns (r: ActionResult<Folder>)
      modifies this
      ensures loadingFolders == old(loadingFolders)
      ensures resp.Err? ==>
        && r == Failed(MessageOr(resp.failure, CreateFailed))
        && folders == old(folders) && selectedFolderId == old(selectedFolderId)
        && selectedFolder == old(selectedFolder) && links == old(links)
        && lastFetched == old(lastFetched) && loadingLinks == old(loadingLinks)
        && requests == old(requests) + [PostFolders]
      ensures resp.Ok? ==>
        var id := Some(resp.value.id);
        && folders == old(folders) + [resp.value]
        && selectedFolderId == id && selectedFolder == FindById(folders, id)
        && links == LinksAfterSelect(old(links), old(lastFetched), id, linkResp, now)
        && lastFetched == StampsAfterFetch(old(lastFetched), id, linkResp, now)
        && loadingLinks == (if LinkFetchRequested(old(lastFetched), id, now) then false else old(loadingLinks))
        && requests == old(requests) + [PostFolders] + LinkRequests(old(lastFetched), id, now)
        && r == match FetchError(old(lastFetched), id, linkResp, now)
                case None => Success(resp.value)
                case Some(e) => Failed(MessageOr(e, CreateFailed))
      ensures resp.Ok? ==> SelectionConsistent() && selectedFolder.Some?
      ensures resp.Ok? && FindById(old(folders), Some(resp.value.id)).None? ==> selectedFolder == Some(resp.value)
    {
      requests := requests + [PostFolders];
      match resp {
        case Err(e) =>
          r := Failed(MessageOr(e, CreateFailed));
        case Ok(f) =>
          FindByIdAfterAppend(folders, f);
          folders := folders + [f];
          var err := SetSelectedFolder(Some(f.id), linkResp, now);
          r := if err.None? then Success(f) else Failed(MessageOr(err.value, CreateFailed));
      }
    }

    /** `updateFolder(id, formData)`: after the server confirms, replaces the first
        folder with that id, and the pointer too when that folder is selected.
        Success is reported even when no folder has the id. */
    method UpdateFolder(id: string, resp: Outcome<Folder>) returns (r: ActionResult<Folder>)
      modifies this
      ensures selectedFolderId == old(selectedFolderId) && links == old(links)
      ensures lastFetched == old(lastFetched) && loadingLinks == old(loadingLinks)
      ensures loadingFolders == old(loadingFolders)
      ensures requests == old(requests) + [PutFolders(id)]
      ensures resp.Err? ==>
        && r == Failed(MessageOr(resp.failure, UpdateFailed))
        && folders == old(folders) && selectedFolder == old(selectedFolder)
      ensures resp.Ok? ==>
        && r == Success(resp.value)
        && folders == UpdatedFolders(old(folders), id, resp.value)
        && selectedFolder == UpdatedSelection(old(folders), old(selectedFolderId), old(selectedFolder), id, resp.value)
      ensures resp.Ok? && resp.value.id == id && old(SelectionConsistent()) ==> SelectionConsistent()
    {
      requests := requests + [PutFolders(id)];
      match resp {
        case Err(e) =>
          r := Failed(MessageOr(e, UpdateFailed));
        case Ok(f) =>
          ghost var before, pointer := folders, selectedFolder;
          if f.id == id && pointer == FindById(before, selectedFolderId) {
            UpdateKeepsSelection(before, selectedFolderId, pointer, id, f);
          }
          var i := Seqs.FindIndex(folders, FolderKey, id);
          if i != -1 {
            folders := folders[i := f];
            if selectedFolderId == Some(id) {
              selectedFolder := Some(f);
            }
          }
          assert folders == UpdatedFolders(before, id, f);
          r := Success(f);
      }
    }

    /** `deleteFolder(id)`: after the server confirms, removes every folder with
        that id, re-selects if it was selected, then purges the id from both link
        maps. A failure of the re-selection's link fetch makes it report failure
        and skip the purge. */
    method DeleteFolder(id: string, resp: Outcome<()>, linkResp: Outcome<Option<seq<Link>>>, now: int)
      returns (r: ActionResult<()>)
      modifies this
      ensures loadingFolders == old(loadingFolders)
      ensures resp.Err? ==>
        && r == Failed(MessageOr(resp.failure, DeleteFailed))
        && folders == old(folders) && selectedFolderId == old(selectedFolderId)
        && selectedFolder == old(selectedFolder) && links == old(links)
        && lastFetched == old(lastFetched) && loadingLinks == old(loadingLinks)
        && requests == old(requests) + [DeleteFolders(id)]
      ensures resp.Ok? ==> folders == Seqs.FilterOut(old(folders), FolderKey, id)
      ensures resp.Ok? && old(selectedFolderId) != Some(id) ==>
        && r == Success(())
        && selectedFolderId == old(selectedFolderId) && selectedFolder == old(selectedFolder)
        && links == old(links) - {id} && lastFetched == old(lastFetched) - {id}
        && loadingLinks == old(loadingLinks)
        && requests == old(requests) + [DeleteFolders(id)]
      ensures resp.Ok? && old(selectedFolderId) == Some(id) ==>
        var next := FirstId(folders);
        var err := FetchError(old(lastFetched), next, linkResp, now);
        var linksAfter := LinksAfterSelect(old(links), old(lastFetched), next, linkResp, now);
        var stampsAfter := StampsAfterFetch(old(lastFetched), next, linkResp, now);
        && selectedFolderId == next && selectedFolder == FindById(folders, next)
        && loadingLinks == (if LinkFetchRequested(old(lastFetched), next, now) then false else old(loadingLinks))
        && requests == old(requests) + [DeleteFolders(id)] + LinkRequests(old(lastFetched), next, now)
        && (err.None? ==> r == Success(()) && links == linksAfter - {id} && lastFetched == stampsAfter - {id})
        && (err.Some? ==> r == Failed(MessageOr(err.value, DeleteFailed))
                          && links == linksAfter && lastFetched == stampsAfter)
      ensures resp.Ok? ==> old(SelectionConsistent()) ==> SelectionConsistent()
      ensures resp.Ok? && r.Success? ==> id !in links && id !in lastFetched
    {
      requests := requests + [DeleteFolders(id)];
      match resp {
        case Err(e) =>
          r := Failed(MessageOr(e, DeleteFailed));
        case Ok(_) =>
          if selectedFolderId != Some(id) {
            FindByIdAfterRemove(folders, id, selectedFolderId);
            folders := Seqs.FilterOut(folders, FolderKey, id);
          } else {
            folders := Seqs.FilterOut(folders, FolderKey, id);
            var err := SetSelectedFolder(FirstId(folders), linkResp, now);
            if err.Some? {
              r := Failed(MessageOr(err.value, DeleteFailed));
              return;
            }
          }
          links := links - {id};
          lastFetched := lastFetched - {id};
          r := Success(());
      }
    }

    /** `addLink(linkData)`: needs a selected folder; after the server confirms,
        appends the new link to the folder's cached links, or loads them when
        they are not cached. */
    method AddLink(resp: Outcome<Link>, linkResp: Outcome<Option<seq<Link>>>, now: int)
      returns (r: ActionResult<Link>)
      modifies this
      ensures folders == old(folders) && selectedFolderId == old(selectedFolderId)
      ensures selectedFolder == old(selectedFolder) && loadingFolders == old(loadingFolders)
      ensures !Truthy(selectedFolderId) ==>
        && r == Failed(NoFolderSelected) && links == old(links)
        && lastFetched == old(lastFetched) && loadingLinks == old(loadingLinks)
        && requests == old(requests)
      ensures Truthy(selectedFolderId) && resp.Err? ==>
        && r == Failed(MessageOr(resp.failure, AddFailed)) && links == old(links)
        && lastFetched == old(lastFetched) && loadingLinks == old(loadingLinks)
        && requests == old(requests) + [PostLinks(selectedFolderId.value)]
      ensures Truthy(selectedFolderId) && resp.Ok? && selectedFolderId.value in old(links) ==>
        var sel := selectedFolderId.value;
        && r == Success(resp.value)
        && links == old(links)[sel := old(links)[sel] + [resp.value]]
        && lastFetched == old(lastFetched) && loadingLinks == old(loadingLinks)
        && requests == old(requests) + [PostLinks(sel)]
      ensures Truthy(selectedFolderId) && resp.Ok? && selectedFolderId.value !in old(links) ==>
        var sel := selectedFolderId;
        && links == LinksAfterFetch(old(links), old(lastFetched), sel, linkResp, now)
        && lastFetched == StampsAfterFetch(old(lastFetched), sel, linkResp, now)
        && loadingLinks == (if LinkFetchRequested(old(lastFetched), sel, now) then false else old(loadingLinks))
        && requests == old(requests) + [PostLinks(sel.value)] + LinkRequests(old(lastFetched), sel, now)
        && r == match FetchError(old(lastFetched), sel, linkResp, now)
                case None => Success(resp.value)
                case Some(e) => Failed(MessageOr(e, AddFailed))
    {
      if !Truthy(selectedFolderId) {
        return Failed(NoFolderSelected);
      }
      var sel := selectedFolderId.value;
      requests := requests + [PostLinks(sel)];
      match resp {
        case Err(e) =>
          r := Failed(MessageOr(e, AddFailed));
        case Ok(link) =>
          if sel in links {
            links := links[sel := links[sel] + [link]];
            r := Success(link);
          } else {
            var fetched := FetchLinksByFolder(selectedFolderId, linkResp, now);
            r := if fetched.Ok? then Success(link) else Failed(MessageOr(fetched.failure, AddFailed));
          }
      }
    }

    /** `updateLink(linkId, linkData)`: needs a selected folder; after the server
        confirms, replaces the first cached link with that id in the selected
        folder's links, if they are cached. */
    method UpdateLink(linkId: string, resp: Outcome<Link>) returns (r: ActionResult<Link>)
      modifies this
      ensures folders == old(folders) && selectedFolderId == old(selectedFolderId)
      ensures selectedFolder == old(selectedFolder) && loadingFolders == old(loadingFolders)
      ensures lastFetched == old(lastFetched) && loadingLinks == old(loadingLinks)
      ensures !Truthy(selectedFolderId) ==>
        r == Failed(NoFolderSelected) && links == old(links) && requests == old(requests)
      ensures Truthy(selectedFolderId) ==> requests == old(requests) + [PutLinks(linkId)]
      ensures Truthy(selectedFolderId) && resp.Err? ==>
        r == Failed(MessageOr(resp.failure, UpdateFailed)) && links == old(links)
      ensures Truthy(selectedFolderId) && resp.Ok? ==>
        var sel := selectedFolderId.value;
        && r == Success(resp.value)
        && links == if sel in old(links) && 0 <= Seqs.FindIndex(old(links)[sel], LinkKey, linkId)
                    then old(links)[sel := old(links)[sel][Seqs.FindIndex(old(links)[sel], LinkKey, linkId) := resp.value]]
                    else old(links)
    {
      if !Truthy(selectedFolderId) {
        return Failed(NoFolderSelected);
      }
      var sel := selectedFolderId.value;
      requests := requests + [PutLinks(linkId)];
      match resp {
        case Err(e) =>
          r := Failed(MessageOr(e, UpdateFailed));
        case Ok(link) =>
          if sel in links {
            var i := Seqs.FindIndex(links[sel], LinkKey, linkId);
            if i != -1 {
              links := links[sel := links[sel][i := link]];
            }
          }
          r := Success(link);
      }
    }

    /** `deleteLink(linkId)`: needs a selected folder; after the server confirms,
        drops every cached link with that id from the selected folder's links, if
        they are cached. */
    method DeleteLink(linkId: string, resp: Outcome<()>) returns (r: ActionResult<()>)
      modifies this
      ensures folders == old(folders) && selectedFolderId == old(selectedFolderId)
      ensures selectedFolder == old(selectedFolder) && loadingFolders == old(loadingFolders)
      ensures lastFetched == old(lastFetched) && loadingLinks == old(loadingLinks)
      ensures !Truthy(selectedFolderId) ==>
        r == Failed(NoFolderSelected) && links == old(links) && requests == old(requests)
      ensures Truthy(selectedFolderId) ==> requests == old(requests) + [DeleteLinks(linkId)]
      ensures Truthy(selectedFolderId) && resp.Err? ==>
        r == Failed(MessageOr(resp.failure, DeleteFailed)) && links == old(links)
      ensures Truthy(selectedFolderId) && resp.Ok? ==>
        var sel := selectedFolderId.value;
        && r == Success(())
        && links == if sel in old(links)
                    then old(links)[sel := Seqs.FilterOut(old(links)[sel], LinkKey, linkId)]
                    else old(links)
    {
      if !Truthy(selectedFolderId) {
        return Failed(NoFolderSelected);
      }
      var sel := selectedFolderId.value;
      requests := requests + [DeleteLinks(linkId)];
      match resp {
        case Err(e) =>
          r := Failed(MessageOr(e, DeleteFailed));
        case Ok(_) =>
          if sel in links {
            links := links[sel := Seqs.FilterOut(links[sel], LinkKey, linkId)];
          }
          r := Success(());
      }
    }

    /** `$reset()`: back to the initial state. */
    method Reset()
      modifies this`folders, this`selectedFolderId, this`selectedFolder, this`loadingFolders,
               this`links, this`loadingLinks, this`lastFetched
      ensures folders == [] && selectedFolderId == None && selectedFolder == None
      ensures !loadingFolders && !loadingLinks && links == map[] && lastFetched == map[]
      ensures SelectionConsistent()
    {
      folders := [];
      selectedFolderId := None;
      selectedFolder := None;
      loadingFolders := false;
      links := map[];
      loadingLinks := false;
      lastFetched := map[];
    }
  }
}
