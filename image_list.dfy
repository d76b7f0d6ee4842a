/** ui/pages/src/app/Dashboard/ImageList.tsx: the dashboard's list of
    images. The component's state is a class; each promise callback the
    component registers is a method that runs when that callback would.
    The ghost counters record which callbacks are still outstanding, so a
    callback can only run after the call that registered it. */
module ImageList {
  import opened Wrappers
  import opened DashboardTypes
  import Sequences

  /** A JavaScript Error, by its message. */
  datatype JsError = JsError(message: string)

  /** What a rejected promise hands to setErrorSafe, as its signature
      allows: a string, an Error, or an array of Errors. */
  datatype Rejection = RejectString(text: string) | RejectError(error: JsError) | RejectArray(errors: seq<JsError>)

  /** setErrorSafe: the error it stores. A string becomes an Error with
      exactly that message, an Error is kept, an array gives its first
      element, and an empty array gives undefined: that is the only way the
      error is ever cleared. */
  function ErrorOf(e: Rejection): (r: Option<JsError>)
    ensures e.RejectString? ==> r == Some(JsError(e.text))
    ensures e.RejectError? ==> r == Some(e.error)
    ensures e.RejectArray? && e.errors != [] ==> r == Some(e.errors[0])
    ensures r.None? <==> e == RejectArray([])
  {
    match e
    case RejectString(s) => Some(JsError(s))
    case RejectError(err) => Some(err)
    case RejectArray(errs) => if errs == [] then None else Some(errs[0])
  }

  const NotConnectedMessage: string := "falcon.connect() completed but not connected"

  /** The TypeError thrown when the read step was skipped and its result,
      undefined, is read. */
  const UndefinedResponseMessage: string := "Cannot read properties of undefined (reading 'updated')"

  datatype Content = EmptyState | ImageRows(names: seq<string>, lastSync: Option<int>)

  datatype View = Skeleton | Page(banner: Option<string>, content: Content)

  function Names(images: seq<Image>): seq<string>
  {
    Sequences.Map((i: Image) => i.name, images)
  }

  class ImageListView {
    var hasClient: bool
    var loading: bool
    var error: Option<JsError>
    var images: seq<Image>
    var updated: Option<int>
    ghost var pendingConnect: nat
    ghost var pendingReads: nat
    ghost var pendingTimers: nat
    ghost var pendingPosts: nat

    /** Without a client nothing can end the loading state: no read, timer
        or post has been started. */
    ghost predicate Valid()
      reads this
    {
      && (!hasClient ==> loading && pendingReads == 0 && pendingTimers == 0 && pendingPosts == 0)
      && (hasClient ==> pendingConnect == 0)
      && pendingConnect <= 1
    }

    /** The first render and the mount effect: loading, no error, no
        images; connect() has been called. The effect on `falcon` runs
        loadImages with no client, which does nothing. */
    constructor ()
      ensures Valid()
      ensures loading && error.None? && images == [] && updated.None? && !hasClient
      ensures pendingConnect == 1 && pendingReads == 0 && pendingTimers == 0 && pendingPosts == 0
    {
      hasClient, loading, error, images, updated := false, true, None, [], None;
      pendingConnect, pendingReads, pendingTimers, pendingPosts := 1, 0, 0, 0;
    }

    /** loadImages, given whether the client is connected, whether the page
        runs on localhost, and the current time. */
    method LoadImages(connected: bool, isLocalhost: bool, now: int)
      requires Valid()
      modifies this
      ensures Valid()
      ensures hasClient == old(hasClient) && loading == old(loading) && error == old(error)
      ensures pendingConnect == old(pendingConnect) && pendingPosts == old(pendingPosts)
      ensures !hasClient || !connected ==>
                images == old(images) && updated == old(updated)
                && pendingReads == old(pendingReads) && pendingTimers == old(pendingTimers)
      ensures hasClient && connected && isLocalhost ==>
                images == MockImages && updated == Some(now)
                && pendingTimers == old(pendingTimers) + 1 && pendingReads == old(pendingReads)
      ensures hasClient && connected && !isLocalhost ==>
                images == old(images) && updated == old(updated)
                && pendingReads == old(pendingReads) + 1 && pendingTimers == old(pendingTimers)
    {
      if !hasClient || !connected {
        return;
      }
      if isLocalhost {
        updated := Some(now);
        images := MockImages;
        pendingTimers := pendingTimers + 1;
        return;
      }
      pendingReads := pendingReads + 1;
    }

    /** The mount effect's connect() resolved. A client that is still not
        connected is reported and never stored, so loading stays on; a
        connected one is stored, and the effect on `falcon` loads. */
    method MountConnectResolved(isConnected: bool, isLocalhost: bool, now: int)
      requires Valid() && pendingConnect > 0
      modifies this
      ensures Valid() && pendingConnect == 0
      ensures !isConnected ==>
                && error == Some(JsError(NotConnectedMessage)) && !hasClient && loading
                && images == old(images) && updated == old(updated)
      ensures isConnected ==>
                && hasClient && error == old(error) && loading && pendingPosts == old(pendingPosts)
                && (isLocalhost ==> images == MockImages && updated == Some(now) && pendingTimers == 1 && pendingReads == 0)
                && (!isLocalhost ==> images == old(images) && updated == old(updated) && pendingReads == 1 && pendingTimers == 0)
    {
      pendingConnect := 0;
      if !isConnected {
        error := ErrorOf(RejectString(NotConnectedMessage));
      } else {
        hasClient := true;
        LoadImages(true, isLocalhost, now);
      }
    }

    /** The mount effect's connect() rejected: the error is stored and the
        client never set. */
    method MountConnectRejected(e: Rejection)
      requires Valid() && pendingConnect > 0
      modifies this
      ensures Valid() && pendingConnect == 0
      ensures error == ErrorOf(e) && !hasClient && loading
      ensures images == old(images) && updated == old(updated)
    {
      pendingConnect := 0;
      error := ErrorOf(e);
    }

    /** The localhost timer fired. */
    method MockTimerFired()
      requires Valid() && pendingTimers > 0
      modifies this`loading, this`pendingTimers
      ensures Valid() && !loading && pendingTimers == old(pendingTimers) - 1
    {
      loading := false;
      pendingTimers := pendingTimers - 1;
    }

    /** A read of the collection resolved. `resp` is None when the client
        was no longer connected and the read was skipped: reading `updated`
        of undefined throws, and the TypeError is stored. Otherwise
        `updated` and `images` are replaced only when present; the
        response's errors are not looked at, and the stored error stays. */
    method ReadResolved(resp: Option<CollectionResponse>)
      requires Valid() && pendingReads > 0
      modifies this`loading, this`error, this`images, this`updated, this`pendingReads
      ensures Valid() && !loading && pendingReads == old(pendingReads) - 1
      ensures resp.None? ==> error == Some(JsError(UndefinedResponseMessage)) && images == old(images) && updated == old(updated)
      ensures resp.Some? ==>
                && error == old(error)
                && updated == (if resp.value.updated.Some? then resp.value.updated else old(updated))
                && images == (if resp.value.images.Some? then resp.value.images.value else old(images))
    {
      match resp {
        case None =>
          error := Some(JsError(UndefinedResponseMessage));
        case Some(r) =>
          if r.updated.Some? {
            updated := r.updated;
          }
          if r.images.Some? {
            images := r.images.value;
          }
      }
      loading := false;
      pendingReads := pendingReads - 1;
    }

    /** connect() or the read rejected. */
    method ReadRejected(e: Rejection)
      requires Valid() && pendingReads > 0
      modifies this`loading, this`error, this`pendingReads
      ensures Valid() && !loading && pendingReads == old(pendingReads) - 1
      ensures error == ErrorOf(e)
    {
      error := ErrorOf(e);
      loading := false;
      pendingReads := pendingReads - 1;
    }

    /** syncImages: loading, then the post to the sync function. With no
        client, `falcon!` throws before anything is posted. */
    method SyncImages()
      requires Valid()
      modifies this`loading, this`pendingPosts
      ensures Valid() && loading
      ensures pendingPosts == old(pendingPosts) + (if hasClient then 1 else 0)
    {
      loading := true;
      if hasClient {
        pendingPosts := pendingPosts + 1;
      }
    }

    /** The post resolved: loadImages runs and, since it does not return
        its read, the finally step ends loading at once, while that read
        may still be outstanding. */
    method SyncPostResolved(connected: bool, isLocalhost: bool, now: int)
      requires Valid() && pendingPosts > 0
      modifies this
      ensures Valid() && !loading && hasClient && error == old(error)
      ensures pendingPosts == old(pendingPosts) - 1
      ensures pendingConnect == old(pendingConnect)
      ensures connected && !isLocalhost ==>
                && pendingReads == old(pendingReads) + 1 && pendingTimers == old(pendingTimers)
                && images == old(images) && updated == old(updated)
      ensures connected && isLocalhost ==>
                && pendingTimers == old(pendingTimers) + 1 && pendingReads == old(pendingReads)
                && images == MockImages && updated == Some(now)
      ensures !connected ==>
                && pendingReads == old(pendingReads) && pendingTimers == old(pendingTimers)
                && images == old(images) && updated == old(updated)
    {
      pendingPosts := pendingPosts - 1;
      LoadImages(connected, isLocalhost, now);
      loading := false;
    }

    /** The post rejected: the error is stored and nothing is reloaded. */
    method SyncPostRejected(e: Rejection)
      requires Valid() && pendingPosts > 0
      modifies this`loading, this`error, this`pendingPosts
      ensures Valid() && !loading && error == ErrorOf(e)
      ensures pendingPosts == old(pendingPosts) - 1
    {
      error := ErrorOf(e);
      loading := false;
      pendingPosts := pendingPosts - 1;
    }

    /** What is rendered: only the skeleton while loading; otherwise the
        error banner exactly when there is an error and, independently,
        the empty state exactly when there are no images, else one row per
        image with the last sync time. */
    function Render(): (v: View)
      reads this
      ensures v.Skeleton? <==> loading
      ensures v.Page? ==> (v.banner.Some? <==> error.Some?) && (v.banner.Some? ==> v.banner.value == error.value.message)
      ensures v.Page? ==> (v.content.EmptyState? <==> images == [])
      ensures v.Page? && v.content.ImageRows? ==>
                |v.content.names| == |images| && (forall k :: 0 <= k < |images| ==> v.content.names[k] == images[k].name)
                && v.content.lastSync == updated
    {
      if loading then Skeleton
      else Page(if error.Some? then Some(error.value.message) else None,
                if images == [] then EmptyState else ImageRows(Names(images), updated))
    }
  }
}
