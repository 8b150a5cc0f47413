/** The root of the app (`AppContent`): the session and loading state, the
    auth-state listener, the deep-link handler that signs in from the tokens
    of an auth callback URL, and the choice of the navigation stack. The
    auth backend, the browser and the URL events are inputs here. */
module AppContent {
  import opened Wrappers
  import opened Strings

  /** The session the auth backend hands out; the model only compares it. */
  datatype Session = Session(accessToken: string, refreshToken: string)

  /** How `getSession()` ended: it answered with a session or `null`, or it
      threw. */
  datatype SessionFetch = FetchOk(session: Option<Session>) | FetchThrew

  const SignedOut := "SIGNED_OUT"
  const CallbackPath := "/auth/v1/callback"
  const ShortCallbackPath := "/auth/callback"
  const AccessTokenKey := "access_token"
  const RefreshTokenKey := "refresh_token"

  const HomeTabs := "Главная"
  const AuthStack := "Аутентификация"
  const Camera := "Камера"
  const Terms := "Terms"

  // ---------------------------------------------------------------------------
  // Screen selection

  /** What `AppContent` renders: `None` for the loading indicator alone,
      otherwise the names of the stack's screens in order. */
  function Stack(loading: bool, session: Option<Session>): (screens: Option<seq<string>>)
    ensures screens.None? <==> loading
    ensures screens.Some? ==> |screens.value| == 3 && screens.value[1..] == [Camera, Terms]
    ensures screens.Some? ==> (HomeTabs in screens.value <==> session.Some?)
    ensures screens.Some? ==> (AuthStack in screens.value <==> session.None?)
  {
    if loading then None
    else Some([if session.Some? then HomeTabs else AuthStack, Camera, Terms])
  }

  /** The session after `initializeAuth`: the fetched one, which may be
      `null`, or the current one when the fetch threw. */
  function AfterFetch(current: Option<Session>, fetch: SessionFetch): (s: Option<Session>)
    ensures fetch.FetchThrew? ==> s == current
    ensures fetch.FetchOk? ==> s == fetch.session
  {
    match fetch
    case FetchOk(session) => session
    case FetchThrew => current
  }

  /** Starting from no session, a fetch that throws or answers `null` ends
      loading on the sign-in stack; one that answers a session ends on the
      home tabs. */
  lemma StartUpStack(fetch: SessionFetch)
    ensures var screens := Stack(false, AfterFetch(None, fetch));
      && screens.Some?
      && (HomeTabs in screens.value <==> fetch.FetchOk? && fetch.session.Some?)
      && (fetch.FetchThrew? ==> screens.value == [AuthStack, Camera, Terms])
  {
  }

  // ---------------------------------------------------------------------------
  // Deep links

  /** `url.split('#')[1]`: the text between the first '#' and the next one,
      `undefined` when the URL has no '#'. */
  function FragmentOf(url: string): (fragment: Option<string>)
    ensures fragment.Some? ==> '#' !in fragment.value
  {
    var parts := Split(url, '#');
    if |parts| >= 2 then
      assert forall i :: 0 <= i < |parts[1]| ==> parts[1][i] != '#';
      Some(parts[1])
    else None
  }

  /** A URL without '#' has no fragment. */
  lemma NoHashNoFragment(url: string)
    requires '#' !in url
    ensures FragmentOf(url) == None
  {
    SplitNoSeparator(url, '#');
  }

  /** The fragment is the text after the first '#', up to the next '#'. */
  lemma FragmentBetweenHashes(base: string, fragment: string, tail: Option<string>)
    requires '#' !in base && '#' !in fragment
    ensures var url := base + ['#'] + fragment + (if tail.Some? then ['#'] + tail.value else []);
      FragmentOf(url) == Some(fragment)
  {
    var rest := fragment + (if tail.Some? then ['#'] + tail.value else []);
    assert base + ['#'] + fragment + (if tail.Some? then ['#'] + tail.value else []) == base + ['#'] + rest;
    SplitAtFirst(base, '#', rest);
    if tail.Some? {
      assert rest == fragment + ['#'] + tail.value;
      SplitAtFirst(fragment, '#', tail.value);
    } else {
      assert rest == fragment;
      SplitNoSeparator(fragment, '#');
    }
  }

  /** One `name=value` piece of a query: split at the first '='; a piece
      without '=' is a name with an empty value. */
  function PairOf(piece: string): (p: (string, string))
    ensures '=' !in p.0
    ensures '=' in piece ==> piece == p.0 + "=" + p.1
    ensures '=' !in piece ==> p == (piece, "")
  {
    var i := IndexOf(piece, '=');
    if i < |piece| then
      assert piece == piece[..i] + "=" + piece[i + 1..];
      (piece[..i], piece[i + 1..])
    else (piece, "")
  }

  /** A name without '=', then '=', then any value reads back as that
      name and value. */
  lemma PairOfNameValue(name: string, value: string)
    requires '=' !in name
    ensures PairOf(Piece(name, value)) == (name, value)
  {
    var piece := Piece(name, value);
    assert piece[|name|] == '=';
    var i := IndexOf(piece, '=');
    assert i == |name|;
    assert piece[..i] == name && piece[i + 1..] == value;
  }

  /** The pairs of the '&'-separated pieces, empty pieces skipped. */
  function PairsOf(pieces: seq<string>): (pairs: seq<(string, string)>)
    ensures |pairs| <= |pieces|
    ensures forall p :: p in pairs ==> '=' !in p.0
  {
    if pieces == [] then []
    else if pieces[0] == "" then PairsOf(pieces[1..])
    else [PairOf(pieces[0])] + PairsOf(pieces[1..])
  }

  /** `new URLSearchParams(fragment)`: one leading '?' is dropped, and an
      `undefined` fragment gives no pairs. Percent-decoding is not
      modelled. */
  function Params(fragment: Option<string>): (pairs: seq<(string, string)>)
    ensures fragment.None? ==> pairs == []
  {
    match fragment
    case None => []
    case Some(q) =>
      var query := if q != [] && q[0] == '?' then q[1..] else q;
      PairsOf(Split(query, '&'))
  }

  /** The URL contains one of the two callback paths. */
  predicate IsCallback(url: string)
  {
    Contains(url, CallbackPath) || Contains(url, ShortCallbackPath)
  }

  /** The `setSession` call `handleDeepLink` makes for a URL, if any: only
      for a callback URL, and only when both tokens, looked up in the
      fragment's pairs (the first pair of a name wins), are non-empty. */
  function DeepLinkCall(url: string): (call: Option<(string, string)>)
    ensures !IsCallback(url) ==> call.None?
    ensures call.Some? ==> call.value.0 != "" && call.value.1 != ""
    ensures call.Some? ==> var pairs := Params(FragmentOf(url));
      (AccessTokenKey, call.value.0) in pairs && (RefreshTokenKey, call.value.1) in pairs
  {
    if !IsCallback(url) then None
    else
      var pairs := Params(FragmentOf(url));
      match (Lookup(pairs, AccessTokenKey), Lookup(pairs, RefreshTokenKey))
      case (Some(access), Some(refresh)) =>
        if access != "" && refresh != "" then Some((access, refresh)) else None
      case _ => None
  }

  /** `handleDeepLink` calls `setSession` with `(access, refresh)` exactly
      when the URL is a callback and those are the values of the first
      `access_token` and the first `refresh_token` pair of its fragment,
      both non-empty. Any other URL makes no call. */
  lemma DeepLinkCallIff(url: string, access: string, refresh: string)
    ensures var pairs := Params(FragmentOf(url));
      DeepLinkCall(url) == Some((access, refresh)) <==>
        && IsCallback(url) && access != "" && refresh != ""
        && FirstWith(pairs, AccessTokenKey, access) && FirstWith(pairs, RefreshTokenKey, refresh)
  {
    var pairs := Params(FragmentOf(url));
    LookupIsFirst(pairs, AccessTokenKey, access);
    LookupIsFirst(pairs, RefreshTokenKey, refresh);
  }

  /** A URL without '#' never signs in, callback or not. */
  lemma NoHashNoCall(url: string)
    requires '#' !in url
    ensures DeepLinkCall(url) == None
  {
    NoHashNoFragment(url);
  }

  /** The query piece `name=value`. */
  function Piece(name: string, value: string): string
  {
    name + "=" + value
  }

  /** The fragment an auth callback carries, followed by whatever else
      (nothing, or more '&'-separated pairs). */
  function TokenFragment(access: string, refresh: string, more: string): string
  {
    Piece(AccessTokenKey, access) + "&" + Piece(RefreshTokenKey, refresh) + more
  }

  /** The pieces after the first two. */
  function MorePieces(more: string): seq<string>
  {
    if more == [] then [] else Split(more[1..], '&')
  }

  /** Two pieces without '&', joined by '&' and followed by nothing or by
      '&' and more, split into those two pieces and the pieces of the
      rest. */
  lemma SplitTwo(p1: string, p2: string, more: string)
    requires '&' !in p1 && '&' !in p2
    requires more == [] || more[0] == '&'
    ensures Split(p1 + "&" + p2 + more, '&') == [p1, p2] + MorePieces(more)
  {
    assert p1 + "&" + p2 + more == p1 + ['&'] + (p2 + more);
    SplitAtFirst(p1, '&', p2 + more);
    if more == [] {
      assert p2 + more == p2;
      SplitNoSeparator(p2, '&');
    } else {
      assert p2 + more == p2 + ['&'] + more[1..];
      SplitAtFirst(p2, '&', more[1..]);
    }
  }

  /** A piece has '&' only where its name or value has. */
  lemma PieceNoAmpersand(name: string, value: string)
    requires '&' !in name && '&' !in value
    ensures '&' !in Piece(name, value)
  {
  }

  /** Two non-empty pieces in front give their two pairs in front. */
  lemma PairsOfTwo(p1: string, p2: string, rest: seq<string>)
    requires p1 != "" && p2 != ""
    ensures PairsOf([p1, p2] + rest) == [PairOf(p1), PairOf(p2)] + PairsOf(rest)
  {
    var pieces := [p1, p2] + rest;
    assert pieces[1..] == [p2] + rest;
    assert ([p2] + rest)[1..] == rest;
  }

  /** The pieces of such a fragment: the two token pieces, then the pieces
      of whatever follows. */
  lemma TokenPieces(access: string, refresh: string, more: string)
    requires '&' !in access && '&' !in refresh
    requires more == [] || more[0] == '&'
    ensures Params(Some(TokenFragment(access, refresh, more)))
      == PairsOf([Piece(AccessTokenKey, access), Piece(RefreshTokenKey, refresh)] + MorePieces(more))
  {
    var q := TokenFragment(access, refresh, more);
    assert q[0] == 'a';
    PieceNoAmpersand(AccessTokenKey, access);
    PieceNoAmpersand(RefreshTokenKey, refresh);
    SplitTwo(Piece(AccessTokenKey, access), Piece(RefreshTokenKey, refresh), more);
  }

  /** The pairs of such a fragment: the two token pairs, then the pairs of
      whatever follows. */
  lemma TokenPairs(access: string, refresh: string, more: string)
    requires '&' !in access && '&' !in refresh
    requires more == [] || more[0] == '&'
    ensures Params(Some(TokenFragment(access, refresh, more)))
      == [(AccessTokenKey, access), (RefreshTokenKey, refresh)] + PairsOf(MorePieces(more))
  {
    var p1 := Piece(AccessTokenKey, access);
    var p2 := Piece(RefreshTokenKey, refresh);
    var rest := MorePieces(more);
    TokenPieces(access, refresh, more);
    PairsOfTwo(p1, p2, rest);
    PairOfNameValue(AccessTokenKey, access);
    PairOfNameValue(RefreshTokenKey, refresh);
    calc {
      Params(Some(TokenFragment(access, refresh, more)));
      PairsOf([p1, p2] + rest);
      [PairOf(p1), PairOf(p2)] + PairsOf(rest);
      [(AccessTokenKey, access), (RefreshTokenKey, refresh)] + PairsOf(rest);
    }
  }

  /** The two token pairs of such a fragment come first, so later pairs,
      even with the same names, do not change the tokens read. */
  lemma TokensRead(access: string, refresh: string, more: string)
    requires '&' !in access && '&' !in refresh
    requires more == [] || more[0] == '&'
    ensures var pairs := Params(Some(TokenFragment(access, refresh, more)));
      Lookup(pairs, AccessTokenKey) == Some(access) && Lookup(pairs, RefreshTokenKey) == Some(refresh)
  {
    TokenPairs(access, refresh, more);
    var pairs := Params(Some(TokenFragment(access, refresh, more)));
    assert pairs[0] == (AccessTokenKey, access) && pairs[1] == (RefreshTokenKey, refresh);
    LookupFinds(pairs, 0);
    LookupFinds(pairs, 1);
  }

  /** The callback URL round trip: tokens placed in the fragment of a
      callback URL are exactly the tokens `setSession` receives. */
  lemma CallbackRoundTrip(base: string, access: string, refresh: string, more: string, tail: Option<string>)
    requires IsCallback(base) && '#' !in base
    requires access != "" && refresh != ""
    requires '&' !in access && '&' !in refresh && '#' !in access && '#' !in refresh
    requires (more == [] || more[0] == '&') && '#' !in more
    ensures var fragment := TokenFragment(access, refresh, more);
      DeepLinkCall(base + ['#'] + fragment + (if tail.Some? then ['#'] + tail.value else [])) == Some((access, refresh))
  {
    var fragment := TokenFragment(access, refresh, more);
    var url := base + ['#'] + fragment + (if tail.Some? then ['#'] + tail.value else []);
    assert '#' !in fragment;
    FragmentBetweenHashes(base, fragment, tail);
    assert url[..|base|] == base;
    if Contains(base, CallbackPath) {
      PrefixContains(base, url[|base|..], CallbackPath);
    } else {
      PrefixContains(base, url[|base|..], ShortCallbackPath);
    }
    assert base + url[|base|..] == url;
    TokensRead(access, refresh, more);
  }

  /** Text found in a prefix is found in the whole. */
  lemma PrefixContains(p: string, s: string, sub: string)
    requires Contains(p, sub)
    ensures Contains(p + s, sub)
  {
    var i: nat :| i <= |p| && OccursAt(p, sub, i);
    assert (p + s)[i..i + |sub|] == p[i..i + |sub|];
    assert OccursAt(p + s, sub, i);
  }

  // ---------------------------------------------------------------------------
  // The component

  datatype Effect =
    | StartAutoRefresh
    | DismissBrowser
    | SetSessionCall(accessToken: string, refreshToken: string)
    | Unsubscribe
    | RemoveUrlListeners

  class AppContentState {
    var session: Option<Session>
    var loading: bool
    var authSubscribed: bool
    var urlListening: bool
    var effects: seq<Effect>

    /** The first render: no session, loading. */
    constructor ()
      ensures session.None? && loading && !authSubscribed && !urlListening && effects == []
      ensures Screens().None?
    {
      session, loading := None, true;
      authSubscribed, urlListening := false, false;
      effects := [];
    }

    function Screens(): Option<seq<string>>
      reads this
    {
      Stack(loading, session)
    }

    /** The mount effect: the auth listener is subscribed and the URL
      listener added; the session fetch is started and answers through
      `InitializeAuth`. */
    method Mount()
      modifies this
      ensures authSubscribed && urlListening
      ensures session == old(session) && loading == old(loading) && effects == old(effects)
    {
      authSubscribed, urlListening := true, true;
    }

    /** `initializeAuth`, with the answer of `getSession`: a session or
      `null` is stored and auto-refresh started; a throw changes no
      session. Loading ends either way. */
    method InitializeAuth(fetch: SessionFetch)
      modifies this
      ensures session == AfterFetch(old(session), fetch)
      ensures !loading
      ensures effects == old(effects) + (if fetch.FetchOk? then [StartAutoRefresh] else [])
      ensures authSubscribed == old(authSubscribed) && urlListening == old(urlListening)
    {
      if fetch.FetchOk? {
        session := fetch.session;
        effects := effects + [StartAutoRefresh];
      }
      loading := false;
    }

    /** The auth listener: every event, whatever its kind, sets the session
      to the event's; 'SIGNED_OUT' also closes the browser. Nothing happens
      once unsubscribed. */
    method OnAuthStateChange(event: string, s: Option<Session>)
      modifies this
      ensures authSubscribed ==> session == s
      ensures !authSubscribed ==> session == old(session)
      ensures effects == old(effects) + (if authSubscribed && event == SignedOut then [DismissBrowser] else [])
      ensures loading == old(loading) && authSubscribed == old(authSubscribed) && urlListening == old(urlListening)
    {
      if authSubscribed {
        session := s;
        if event == SignedOut {
          effects := effects + [DismissBrowser];
        }
      }
    }

    /** `handleDeepLink`: at most one `setSession` call per link, with the
      tokens `DeepLinkCall` reads; the session itself changes only through
      the auth listener. */
    method HandleDeepLink(url: string)
      modifies this
      ensures var call := DeepLinkCall(url);
        effects == old(effects) + (if urlListening && call.Some? then [SetSessionCall(call.value.0, call.value.1)] else [])
      ensures session == old(session) && loading == old(loading)
      ensures authSubscribed == old(authSubscribed) && urlListening == old(urlListening)
    {
      if urlListening {
        var call := DeepLinkCall(url);
        if call.Some? {
          effects := effects + [SetSessionCall(call.value.0, call.value.1)];
        }
      }
    }

    /** The cleanup of the mount effect: the auth listener is unsubscribed
      and every URL listener removed. */
    method Teardown()
      modifies this
      ensures !authSubscribed && !urlListening
      ensures effects == old(effects) + [Unsubscribe, RemoveUrlListeners]
      ensures session == old(session) && loading == old(loading)
    {
      authSubscribed, urlListening := false, false;
      effects := effects + [Unsubscribe, RemoveUrlListeners];
    }
  }
}
