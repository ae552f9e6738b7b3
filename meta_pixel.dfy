/**
  The Meta Pixel tracking facade of the `useMetaPixel` hook.

  `trackEvent` turns one `TrackOptions` record into at most one call
  `fbq('track', event, params[, {eventID}])` of the third-party pixel. The pixel
  is modelled as a `Pixel` object: whether `window.fbq` is present (`available`)
  and the log of calls it has received (`sent`). The cookie-reading enrichment
  `enhanceEventData` is not part of this model; it is a fixed function `enhance`
  of the custom data about which nothing else is assumed.
*/
module MetaPixel {
  import opened Wrappers

  /** The closed vocabulary of pixel events (`MetaPixelEvent`). */
  datatype PixelEvent =
    | PageView | ViewContent | Search | AddToCart | AddToWishlist | InitiateCheckout
    | AddPaymentInfo | Purchase | Lead | CompleteRegistration | Contact | CustomizeProduct
    | Donate | FindLocation | Schedule | StartTrial | SubmitApplication | Subscribe

  /**
    A JavaScript value as it appears in a payload. Numbers are carried as exact
    reals and no arithmetic is done on them. `Undefined` is an own property whose
    value is `undefined` (`{ value }` with `value` omitted still has the key).
  */
  datatype Value = Str(s: string) | Num(n: real) | Bool(b: bool) | StrList(items: seq<string>) | Undefined

  /** An open-ended custom-data object (`MetaPixelCustomData`). */
  type CustomData = map<string, Value>

  /** `MetaPixelUserData`: every field independently optional. */
  datatype UserData = UserData(
    email: Option<string>, phone: Option<string>,
    firstName: Option<string>, lastName: Option<string>,
    city: Option<string>, state: Option<string>, zip: Option<string>,
    country: Option<string>, externalId: Option<string>,
    fbc: Option<string>, fbp: Option<string>)

  const NoUserData := UserData(None, None, None, None, None, None, None, None, None, None, None)

  /** The unit of work handed to `trackEvent`. */
  datatype TrackOptions = TrackOptions(
    event: PixelEvent,
    userData: Option<UserData>,
    customData: Option<CustomData>,
    eventId: Option<string>)

  /** One call `fbq('track', event, params)`, with `{eventID}` as fourth argument when present. */
  datatype FbqCall = Track(event: PixelEvent, params: map<string, Value>, eventID: Option<string>)

  /** JavaScript truthiness of an optional string: present and not empty. */
  predicate Truthy(s: Option<string>)
  {
    s.Some? && s.value != ""
  }

  /** The fields of `MetaPixelUserData`. */
  datatype UserField = Email | Phone | FirstName | LastName | City | State | Zip | Country | ExternalId | Fbc | Fbp


  function FieldValue(u: UserData, f: UserField): Option<string>
  {
    match f
    case Email => u.email
    case Phone => u.phone
    case FirstName => u.firstName
    case LastName => u.lastName
    case City => u.city
    case State => u.state
    case Zip => u.zip
    case Country => u.country
    case ExternalId => u.externalId
    case Fbc => u.fbc
    case Fbp => u.fbp
  }

  /** The canonical outgoing key of a user-data field; `fbc` and `fbp` have none. */
  function ShortKey(f: UserField): Option<string>
  {
    match f
    case Email => Some("em")
    case Phone => Some("ph")
    case FirstName => Some("fn")
    case LastName => Some("ln")
    case City => Some("ct")
    case State => Some("st")
    case Zip => Some("zp")
    case Country => Some("country")
    case ExternalId => Some("external_id")
    case Fbc => None
    case Fbp => None
  }

  /** The mapped fields in the order `trackEvent` examines them. */
  const SourceOrder: seq<UserField> := [Email, Phone, FirstName, LastName, City, State, Zip, Country, ExternalId]

  /** Every key the user-data mapping can produce. */
  const UserKeys: set<string> := {"em", "ph", "fn", "ln", "ct", "st", "zp", "country", "external_id"}

  /** Distinct fields never share an outgoing key. */
  lemma ShortKeyInjective(f: UserField, g: UserField)
    requires ShortKey(f).Some? && ShortKey(g).Some? && ShortKey(f) == ShortKey(g)
    ensures f == g
  {
  }

  /** The parameters produced by examining `fields` in order, each truthy mapped field setting its key. */
  function Collect(u: UserData, fields: seq<UserField>): map<string, Value>
    decreases |fields|
  {
    if fields == [] then map[]
    else
      var f := fields[|fields| - 1];
      var rest := Collect(u, fields[..|fields| - 1]);
      if ShortKey(f).Some? && Truthy(FieldValue(u, f))
      then rest[ShortKey(f).value := Str(FieldValue(u, f).value)]
      else rest
  }

  /**
    What examining `fields` yields: a mapped field's key is set exactly when the
    field was examined and is truthy, with the field's value, and no other key is set.
  */
  lemma {:induction false} CollectSpec(u: UserData, fields: seq<UserField>)
    ensures forall k | k in Collect(u, fields) :: exists f | f in fields :: ShortKey(f) == Some(k)
    ensures forall f | ShortKey(f).Some? ::
      && (ShortKey(f).value in Collect(u, fields) <==> f in fields && Truthy(FieldValue(u, f)))
      && (ShortKey(f).value in Collect(u, fields) ==>
            Collect(u, fields)[ShortKey(f).value] == Str(FieldValue(u, f).value))
    decreases |fields|
  {
    if fields != [] {
      var init := fields[..|fields| - 1];
      var last := fields[|fields| - 1];
      assert fields == init + [last];
      CollectSpec(u, init);
      forall f | ShortKey(f).Some? && ShortKey(last).Some? && ShortKey(f) == ShortKey(last)
        ensures f == last
      {
        ShortKeyInjective(f, last);
      }
    }
  }

  /**
    The user parameters of an outgoing call: each truthy, mapped field of the
    user data under its short key with its own value, and nothing else.
  */
  function UserParams(userData: Option<UserData>): (p: map<string, Value>)
    ensures p.Keys <= UserKeys
    ensures forall f | ShortKey(f).Some? ::
      && (ShortKey(f).value in p <==> userData.Some? && Truthy(FieldValue(userData.value, f)))
      && (ShortKey(f).value in p ==> p[ShortKey(f).value] == Str(FieldValue(userData.value, f).value))
  {
    match userData
    case None => map[]
    case Some(u) =>
      CollectSpec(u, SourceOrder);
      Collect(u, SourceOrder)
  }

  /** Examining one more field sets at most that field's key. */
  lemma CollectSnoc(u: UserData, fields: seq<UserField>, f: UserField)
    ensures Collect(u, fields + [f]) ==
      if ShortKey(f).Some? && Truthy(FieldValue(u, f))
      then Collect(u, fields)[ShortKey(f).value := Str(FieldValue(u, f).value)]
      else Collect(u, fields)
  {
    assert (fields + [f])[..|fields|] == fields;
  }

  /** One step of the build: set the field's short key when the field is truthy. */
  method AddUserParam(params: map<string, Value>, u: UserData, ghost done: seq<UserField>, f: UserField)
    returns (next: map<string, Value>)
    requires ShortKey(f).Some? && params == Collect(u, done)
    ensures next == Collect(u, done + [f])
  {
    var field := FieldValue(u, f);
    if Truthy(field) {
      next := params[ShortKey(f).value := Str(field.value)];
    } else {
      next := params;
    }
    CollectSnoc(u, done, f);
  }

  /** Builds the user parameters field by field, in the order `trackEvent` does. */
  method BuildUserParams(userData: Option<UserData>) returns (params: map<string, Value>)
    ensures params == UserParams(userData)
  {
    params := map[];
    if userData.Some? {
      var u := userData.value;
      ghost var done: seq<UserField> := [];
      params := AddUserParam(params, u, done, Email);
      done := done + [Email];
      params := AddUserParam(params, u, done, Phone);
      done := done + [Phone];
      params := AddUserParam(params, u, done, FirstName);
      done := done + [FirstName];
      params := AddUserParam(params, u, done, LastName);
      done := done + [LastName];
      params := AddUserParam(params, u, done, City);
      done := done + [City];
      params := AddUserParam(params, u, done, State);
      done := done + [State];
      params := AddUserParam(params, u, done, Zip);
      done := done + [Zip];
      params := AddUserParam(params, u, done, Country);
      done := done + [Country];
      params := AddUserParam(params, u, done, ExternalId);
      done := done + [ExternalId];
      assert done == SourceOrder;
    }
  }

  /**
    The call `trackEvent` makes when the pixel is present. With a truthy event id
    only the user parameters go out, with the id as `eventID`; otherwise the user
    parameters are merged with the enriched custom data, which wins on a shared key.
  */
  function Outgoing(opts: TrackOptions, enhance: Option<CustomData> -> CustomData): (call: FbqCall)
    ensures call.event == opts.event
    ensures call.eventID.Some? <==> Truthy(opts.eventId)
    ensures Truthy(opts.eventId) ==> call.eventID == opts.eventId && call.params == UserParams(opts.userData)
    ensures !Truthy(opts.eventId) ==>
      call.params.Keys == UserParams(opts.userData).Keys + enhance(opts.customData).Keys
    ensures !Truthy(opts.eventId) ==>
      forall k | k in enhance(opts.customData) :: call.params[k] == enhance(opts.customData)[k]
    ensures !Truthy(opts.eventId) ==>
      forall k | k in UserParams(opts.userData) && k !in enhance(opts.customData) ::
        call.params[k] == UserParams(opts.userData)[k]
  {
    var params := UserParams(opts.userData);
    if Truthy(opts.eventId) then
      Track(opts.event, params, Some(opts.eventId.value))
    else
      Track(opts.event, params + enhance(opts.customData), None)
  }

  /** The custom data the route effect hands to the enrichment. */
  function PageViewData(pathname: string): (d: CustomData)
  {
    map["content_name" := Str(pathname), "content_type" := Str("page_view")]
  }

  /** The page view is keyed on the path: two page views carry the same data only for the same path. */
  lemma PageViewDataNamesPath(p1: string, p2: string)
    ensures PageViewData(p1).Keys == {"content_name", "content_type"}
    ensures PageViewData(p1)["content_type"] == Str("page_view")
    ensures PageViewData(p1) == PageViewData(p2) <==> p1 == p2
  {
    if PageViewData(p1) == PageViewData(p2) {
      assert PageViewData(p1)["content_name"] == Str(p1);
    }
  }

  /** The route effect fires when the pathname differs from the one it last ran for. */
  predicate Fires(last: Option<string>, pathname: string)
  {
    last != Some(pathname)
  }

  /** The pathname the effect last ran for, after rendering `paths` from `last`. */
  function LastPath(last: Option<string>, paths: seq<string>): Option<string>
  {
    if paths == [] then last else Some(paths[|paths| - 1])
  }

  /** The pathnames, in order, for which a run of renders fires a page view. */
  function PageViews(last: Option<string>, paths: seq<string>): (views: seq<string>)
    ensures |views| <= |paths|
    decreases paths
  {
    if paths == [] then []
    else (if Fires(last, paths[0]) then [paths[0]] else []) + PageViews(Some(paths[0]), paths[1..])
  }

  /**
    One more render adds exactly one page view when the pathname changed and
    none when it did not.
  */
  lemma {:induction false} PageViewsSnoc(last: Option<string>, paths: seq<string>, pathname: string)
    ensures PageViews(last, paths + [pathname]) ==
      PageViews(last, paths) + (if Fires(LastPath(last, paths), pathname) then [pathname] else [])
    decreases paths
  {
    if paths != [] {
      assert (paths + [pathname])[1..] == paths[1..] + [pathname];
      PageViewsSnoc(Some(paths[0]), paths[1..], pathname);
    }
  }

  /** Two consecutive page views are never for the same path, and the first differs from `last`. */
  lemma {:induction false} PageViewsNoRepeat(last: Option<string>, paths: seq<string>)
    ensures var views := PageViews(last, paths);
      (|views| > 0 ==> Fires(last, views[0])) &&
      forall i | 0 < i < |views| :: views[i - 1] != views[i]
    decreases paths
  {
    if paths != [] {
      PageViewsNoRepeat(Some(paths[0]), paths[1..]);
      var rest := PageViews(Some(paths[0]), paths[1..]);
      if Fires(last, paths[0]) {
        assert PageViews(last, paths) == [paths[0]] + rest;
      } else {
        assert PageViews(last, paths) == rest;
        PageViewsFromSameStart(last, paths[0], paths[1..]);
      }
    }
  }

  /** A run started from `Some(p)` never fires first for `p`, whatever came before. */
  lemma {:induction false} PageViewsFromSameStart(last: Option<string>, p: string, paths: seq<string>)
    requires last == Some(p)
    ensures |PageViews(last, paths)| > 0 ==> PageViews(last, paths)[0] != p
    decreases paths
  {
    if paths != [] && !Fires(last, paths[0]) {
      PageViewsFromSameStart(Some(paths[0]), p, paths[1..]);
    }
  }

  /**
    The pixel as the hook sees it: whether `window.fbq` is present, the calls it
    has received, and the enrichment. One pixel is shared by every component
    that calls `useMetaPixel()`.
  */
  class Pixel {
    var available: bool
    var sent: seq<FbqCall>
    const enhance: Option<CustomData> -> CustomData

    constructor (available: bool, enhance: Option<CustomData> -> CustomData)
      ensures this.available == available && this.enhance == enhance && sent == []
    {
      this.available := available;
      this.enhance := enhance;
      sent := [];
    }

    /** The calls one `trackEvent` makes: one when the pixel is present, none otherwise. */
    function Emitted(opts: TrackOptions): (calls: seq<FbqCall>)
      reads this
      ensures |calls| == if available then 1 else 0
    {
      if available then [Outgoing(opts, enhance)] else []
    }

    /** `trackEvent` */
    method TrackEvent(opts: TrackOptions)
      modifies this`sent
      ensures sent == old(sent) + Emitted(opts)
    {
      if available {
        var params := BuildUserParams(opts.userData);
        var enhanced := enhance(opts.customData);
        if Truthy(opts.eventId) {
          sent := sent + [Track(opts.event, params, Some(opts.eventId.value))];
        } else {
          sent := sent + [Track(opts.event, params + enhanced, None)];
        }
      }
    }
  }

  /**
    The route effect of one mounted `useMetaPixel()` instance: the pathname it
    last ran for, reporting to the shared pixel. Every component calling the
    hook owns one; creating it is the component's mount.
  */
  class RouteEffect {
    const pixel: Pixel
    var lastPath: Option<string>
    /** The pathnames of all renders of this instance, and those that fired a page view. */
    ghost var renders: seq<string>
    ghost var pageViews: seq<string>

    ghost predicate Valid()
      reads this
    {
      lastPath == LastPath(None, renders) && pageViews == PageViews(None, renders)
    }

    constructor (pixel: Pixel)
      ensures this.pixel == pixel && lastPath == None
      ensures Valid() && renders == [] && pageViews == []
    {
      this.pixel := pixel;
      lastPath := None;
      renders := [];
      pageViews := [];
    }

    /**
      The effect after a render at `pathname`: it runs when the pathname changed
      (including the first render after mount) and sends one enriched PageView
      when the pixel is present.
    */
    method OnRender(pathname: string)
      requires Valid()
      modifies pixel`sent, this`lastPath, this`renders, this`pageViews
      ensures Valid()
      ensures renders == old(renders) + [pathname] && lastPath == Some(pathname)
      ensures pageViews == old(pageViews) + (if Fires(old(lastPath), pathname) then [pathname] else [])
      ensures pixel.sent == old(pixel.sent) +
        (if Fires(old(lastPath), pathname) && pixel.available
         then [Track(PageView, pixel.enhance(Some(PageViewData(pathname))), None)]
         else [])
    {
      PageViewsSnoc(None, renders, pathname);
      if lastPath != Some(pathname) {
        if pixel.available {
          var enhancedData := pixel.enhance(Some(PageViewData(pathname)));
          pixel.sent := pixel.sent + [Track(PageView, enhancedData, None)];
        }
        pageViews := pageViews + [pathname];
      }
      lastPath := Some(pathname);
      renders := renders + [pathname];
    }
  }
}
