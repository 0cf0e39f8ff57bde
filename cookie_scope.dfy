/**
 * The cookie scope policy of the shared HTTP client: one process-wide cookie
 * slot, captured only from responses of "login" hosts and withheld from
 * requests to "passport" and "login" hosts.
 */
module CookieScope {

  /** An HTTP cookie. The policy never looks inside one. */
  datatype Cookie = Cookie(name: string, value: string)

  const LoginMarker: string := "login"
  const PassportMarker: string := "passport"

  /** Java's `String.contains`: `marker` occurs in `s` as a contiguous substring. */
  predicate Contains(s: string, marker: string)
    ensures Contains(s, marker) ==> |marker| <= |s|
    decreases |s|
  {
    |marker| <= |s| && (s[..|marker|] == marker || (0 < |s| && Contains(s[1..], marker)))
  }

  /** The reference meaning of `Contains`: some position of `s` starts a copy of `marker`. */
  ghost predicate OccursAt(s: string, marker: string, i: int)
  {
    0 <= i && i + |marker| <= |s| && s[i..i + |marker|] == marker
  }

  lemma {:induction false} ContainsMeansOccurs(s: string, marker: string)
    ensures Contains(s, marker) <==> exists i :: OccursAt(s, marker, i)
    decreases |s|
  {
    if Contains(s, marker) {
      if s[..|marker|] == marker {
        assert OccursAt(s, marker, 0);
      } else {
        ContainsMeansOccurs(s[1..], marker);
        var i :| OccursAt(s[1..], marker, i);
        assert s[1..][i..i + |marker|] == s[i + 1..i + 1 + |marker|];
        assert OccursAt(s, marker, i + 1);
      }
    }
    if i :| OccursAt(s, marker, i) {
      if i > 0 {
        assert s[1..][i - 1..i - 1 + |marker|] == s[i..i + |marker|];
        assert OccursAt(s[1..], marker, i - 1);
        ContainsMeansOccurs(s[1..], marker);
      }
    }
  }

  /** Responses from these hosts replace the cookie slot. */
  predicate IsLoginHost(host: string)
  {
    Contains(host, LoginMarker)
  }

  /** Requests to these hosts never carry stored cookies. */
  predicate IsWithheldHost(host: string)
  {
    Contains(host, PassportMarker) || Contains(host, LoginMarker)
  }

  /** The slot after a response from `host` carried `cookies`. */
  function Saved(store: seq<Cookie>, host: string, cookies: seq<Cookie>): (r: seq<Cookie>)
    ensures r == cookies || r == store
  {
    if IsLoginHost(host) then cookies else store
  }

  /** The cookies attached to a request for `host`. */
  function Loaded(store: seq<Cookie>, host: string): (r: seq<Cookie>)
    ensures r == [] || r == store
  {
    if IsWithheldHost(host) then [] else store
  }

  /**
   * The process-wide slot with its three operations. The source holds it in a
   * static field; one object of this class stands for that field.
   */
  class CookieJar {
    var store: seq<Cookie>

    /** The slot starts as an empty list. */
    constructor ()
      ensures store == []
    {
      store := [];
    }

    /** Replaces the slot wholesale, only for a login host; never merges. */
    method SaveFromResponse(host: string, cookies: seq<Cookie>)
      modifies this
      ensures store == Saved(old(store), host, cookies)
      ensures IsLoginHost(host) ==> store == cookies
      ensures !IsLoginHost(host) ==> store == old(store)
    {
      if Contains(host, LoginMarker) {
        store := cookies;
      }
    }

    /** Reads the slot; withheld hosts get a fresh empty list. */
    method LoadForRequest(host: string) returns (r: seq<Cookie>)
      ensures r == Loaded(store, host)
      ensures IsWithheldHost(host) ==> r == []
      ensures !IsWithheldHost(host) ==> r == store
    {
      var cookies := store;
      if Contains(host, PassportMarker) || Contains(host, LoginMarker) {
        return [];
      }
      r := cookies;
    }

    /** Empties the slot. */
    method ClearCookie()
      modifies this
      ensures store == []
    {
      store := [];
    }
  }

  /** What the slot observes over time: a response from a host, or an explicit clear. */
  datatype JarEvent = Response(host: string, cookies: seq<Cookie>) | Clear

  function AfterEvent(store: seq<Cookie>, e: JarEvent): seq<Cookie>
  {
    match e
    case Response(host, cookies) => Saved(store, host, cookies)
    case Clear => []
  }

  function AfterEvents(store: seq<Cookie>, es: seq<JarEvent>): seq<Cookie>
    decreases |es|
  {
    if es == [] then store else AfterEvents(AfterEvent(store, es[0]), es[1..])
  }

  /** No event of `es` is a response from a login host. */
  ghost predicate NoLoginResponse(es: seq<JarEvent>)
  {
    forall i :: 0 <= i < |es| ==> !(es[i].Response? && IsLoginHost(es[i].host))
  }

  /** Events other than login-host responses never change the slot. */
  lemma {:induction false} NonLoginEventsKeepStore(store: seq<Cookie>, es: seq<JarEvent>)
    requires NoLoginResponse(es)
    requires forall i :: 0 <= i < |es| ==> es[i].Response?
    ensures AfterEvents(store, es) == store
    decreases |es|
  {
    if es != [] {
      NonLoginEventsKeepStore(store, es[1..]);
    }
  }

  /**
   * After a clear, every host gets no cookies until the next response from a
   * login host, whatever the slot held before.
   */
  lemma {:induction false} ClearedUntilLogin(store: seq<Cookie>, es: seq<JarEvent>, host: string)
    requires NoLoginResponse(es)
    ensures AfterEvents(store, [Clear] + es) == []
    ensures Loaded(AfterEvents(store, [Clear] + es), host) == []
  {
    assert ([Clear] + es)[1..] == es;
    EmptyStaysEmpty(es);
  }

  lemma {:induction false} EmptyStaysEmpty(es: seq<JarEvent>)
    requires NoLoginResponse(es)
    ensures AfterEvents([], es) == []
    decreases |es|
  {
    if es != [] {
      EmptyStaysEmpty(es[1..]);
    }
  }

  /**
   * The asymmetry of the policy: cookies captured from a login host are handed
   * to every other non-withheld host but never echoed back to the login host.
   */
  lemma LoginCookiesNotEchoed(store: seq<Cookie>, login: string, cookies: seq<Cookie>, other: string)
    requires IsLoginHost(login)
    ensures Loaded(Saved(store, login, cookies), login) == []
    ensures !IsWithheldHost(other) ==> Loaded(Saved(store, login, cookies), other) == cookies
  {
  }
}
