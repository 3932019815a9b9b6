/**
 * The Flask application: its state (the two tables and the caller's session)
 * and one method per route handler. Everything the handlers take from the
 * outside world is a parameter: the generated UUID string, the clock's ISO
 * timestamp, the remote address, the request's host URL. SHA-256, the QR
 * encoder and base64 are functions fixed when the application is built.
 */
module Server {
  import opened Wrappers
  import opened Text
  import opened Records
  import opened LinksTable
  import opened EventsTable

  const AdminUsername: string := "admin"
  const AdminPassword: string := "admin123"

  const UrlRequired: string := "URL is required"
  const InvalidLink: string := "رابط غير صالح"
  const Unauthorized: string := "غير مصرح لك بالوصول"
  const RecordDeleted: string := "تم حذف السجل بنجاح"
  const AllRecordsDeleted: string := "تم حذف جميع السجلات بنجاح"

  /** What a handler sends back. */
  datatype Response =
    | LoginForm                                        // login.html
    | Redirect(location: string)                       // 302
    | LinkCreated(originalUrl: string, trackingUrl: string, shortCode: string, qrCode: string)
    | QrImage(png: seq<bv8>)                           // image/png
    | Landing(originalUrl: string, shortCode: string)  // landing.html
    | TrackAccepted(redirect: Option<string>)          // {"success": true, "redirect": ...}
    | DashboardPage(rows: seq<TrackingEvent>, username: Option<string>)
    | Deleted(message: string)                         // {"success": true, "message": ...}
    | Error(code: int, message: string)
  {
    function Status(): int
    {
      match this
      case Redirect(_) => 302
      case Error(code, _) => code
      case _ => 200
    }
  }

  /** The public URL of a short code: `request.host_url + 't/' + short_code`. */
  function TrackingUrl(hostUrl: string, code: string): string
  {
    hostUrl + "t/" + code
  }

  /**
   * The part of what follows the host that the router matches against:
   * everything before the query string (`?`) or the fragment (`#`).
   */
  function PathPart(s: string): (r: string)
    ensures r <= s && '?' !in r && '#' !in r
    ensures |r| < |s| ==> s[|r|] == '?' || s[|r|] == '#'
  {
    if s == [] || s[0] == '?' || s[0] == '#' then []
    else [s[0]] + PathPart(s[1..])
  }

  /**
   * The code that the route `/t/<short_code>` extracts from a URL under
   * `hostUrl`: the query string and fragment are dropped, and what remains
   * must be one non-empty path segment (no '/'). A segment holding a
   * percent-escape is not decoded and yields no code.
   */
  function CodeFromUrl(hostUrl: string, url: string): (r: Option<string>)
    ensures r.Some? ==> r.value != "" && '/' !in r.value && '?' !in r.value && '#' !in r.value && '%' !in r.value
    ensures r.Some? ==>
      var t := TrackingUrl(hostUrl, r.value);
      && t <= url
      && (|t| < |url| ==> url[|t|] == '?' || url[|t|] == '#')
  {
    var n := |hostUrl| + 2;
    if n <= |url| && url[..n] == hostUrl + "t/" then
      var code := PathPart(url[n..]);
      if code != "" && '/' !in code && '%' !in code then
        assert TrackingUrl(hostUrl, code) == url[..n + |code|];
        Some(code)
      else None
    else None
  }

  /** The tracking URL of a code routes back to that code, with or without a query string. */
  lemma TrackingUrlRoundTrip(hostUrl: string, code: string, query: string)
    requires code != "" && '/' !in code && '?' !in code && '#' !in code && '%' !in code
    ensures CodeFromUrl(hostUrl, TrackingUrl(hostUrl, code)) == Some(code)
    ensures CodeFromUrl(hostUrl, TrackingUrl(hostUrl, code) + "?" + query) == Some(code)
  {
    var n := |hostUrl| + 2;
    var plain := TrackingUrl(hostUrl, code);
    var withQuery := plain + "?" + query;
    assert plain[..n] == hostUrl + "t/" && plain[n..] == code;
    assert withQuery[..n] == hostUrl + "t/" && withQuery[n..] == code + "?" + query;
    PathPartStopsAtQuery(code, query);
  }

  /**
   * The tracking URL of a code cut from a UUID string routes back to that
   * code: the first eight characters of `str(uuid.uuid4())` are hex digits.
   */
  lemma UuidCodeRoundTrip(hostUrl: string, uuid: string)
    requires |uuid| >= 8 && forall i :: 0 <= i < 8 ==> uuid[i] in "0123456789abcdef"
    ensures CodeFromUrl(hostUrl, TrackingUrl(hostUrl, Prefix(uuid, 8))) == Some(Prefix(uuid, 8))
  {
    var code := Prefix(uuid, 8);
    assert code == uuid[..8];
    assert forall i :: 0 <= i < |code| ==> code[i] in "0123456789abcdef";
    TrackingUrlRoundTrip(hostUrl, code, "");
  }

  /** The router reads a segment free of `?` and `#` up to the query string that follows it. */
  lemma {:induction false} PathPartStopsAtQuery(segment: string, query: string)
    requires '?' !in segment && '#' !in segment
    ensures PathPart(segment) == segment
    ensures PathPart(segment + "?" + query) == segment
  {
    if segment != [] {
      PathPartStopsAtQuery(segment[1..], query);
      assert (segment + "?" + query)[1..] == segment[1..] + "?" + query;
      assert segment == [segment[0]] + segment[1..];
    }
  }

  /** The login check: the admin name and a password with the admin password's digest. */
  predicate CredentialsMatch(hash: string -> string, username: Option<string>, password: string)
  {
    username == Some(AdminUsername) && hash(password) == hash(AdminPassword)
  }

  /** With a collision-free digest, exactly one name and password pair logs in. */
  lemma CredentialsMatchExactly(hash: string -> string, username: Option<string>, password: string)
    requires forall a, b :: hash(a) == hash(b) ==> a == b
    ensures CredentialsMatch(hash, username, password) <==> username == Some(AdminUsername) && password == AdminPassword
  {
  }

  class App {
    /** The `links` table. */
    var links: map<string, Link>
    /** The `tracking_data` table, rows in insertion order. */
    var events: seq<TrackingEvent>
    /** `session['logged_in']`; an absent key reads as false. */
    var loggedIn: bool
    /** `session['username']`. */
    var username: Option<string>

    /** Hex SHA-256 digest of a password. */
    const hash: string -> string
    /** PNG bytes of a QR code encoding a URL. */
    const qrPng: string -> seq<bv8>
    /** Base64 text of bytes. */
    const base64: seq<bv8> -> string

    ghost predicate Valid()
      reads this
    {
      && KeyedByCode(links)
      && DistinctIds(events)
      && (loggedIn <==> username == Some(AdminUsername))
    }

    /** `init_db` on a fresh database and a fresh session. */
    constructor (hash: string -> string, qrPng: string -> seq<bv8>, base64: seq<bv8> -> string)
      ensures Valid()
      ensures links == map[] && events == [] && !loggedIn && username == None
      ensures this.hash == hash && this.qrPng == qrPng && this.base64 == base64
    {
      this.hash, this.qrPng, this.base64 := hash, qrPng, base64;
      links, events := map[], [];
      loggedIn, username := false, None;
    }

    /** `is_logged_in`: the session flag, which is set exactly when the admin is the session's user. */
    function IsLoggedIn(): (r: bool)
      reads this
      requires Valid()
      ensures r <==> username == Some(AdminUsername)
    {
      loggedIn
    }

    /** `GET /login` renders the form; `POST /login` checks the credentials. */
    method Login(isPost: bool, user: Option<string>, password: Option<string>) returns (r: Response)
      requires Valid()
      modifies this
      ensures Valid()
      ensures links == old(links) && events == old(events)
      ensures !isPost ==> r == LoginForm && loggedIn == old(loggedIn) && username == old(username)
      ensures isPost && password.None? ==>
        r.Error? && r.code == 500 && loggedIn == old(loggedIn) && username == old(username)
      ensures isPost && password.Some? && CredentialsMatch(hash, user, password.value) ==>
        r == Redirect("/dashboard") && loggedIn && username == Some(AdminUsername)
      ensures isPost && password.Some? && !CredentialsMatch(hash, user, password.value) ==>
        r == Redirect("/login?error=1") && loggedIn == old(loggedIn) && username == old(username)
    {
      if !isPost {
        return LoginForm;
      }
      if password.None? {
        // `password.encode()` on None raises before the name is compared.
        return Error(500, "Internal Server Error");
      }
      var hashedPassword := hash(password.value);
      if user == Some(AdminUsername) && hashedPassword == hash(AdminPassword) {
        loggedIn := true;
        username := user;
        r := Redirect("/dashboard");
      } else {
        r := Redirect("/login?error=1");
      }
    }

    /** `GET /logout`: both session keys are removed, whatever the session held. */
    method Logout() returns (r: Response)
      requires Valid()
      modifies this
      ensures Valid()
      ensures links == old(links) && events == old(events)
      ensures !loggedIn && username == None
      ensures r == Redirect("/")
    {
      loggedIn := false;
      username := None;
      r := Redirect("/");
    }

    /**
     * `POST /create_link` with body `{"url": url}`. The code is the first
     * eight characters of the generated UUID string, used as both `id` and
     * `short_code`; a code already in the table violates the primary key and
     * the insert fails with nothing written.
     */
    method CreateLink(url: Option<string>, uuid: string, now: string, hostUrl: string) returns (r: Response)
      requires Valid()
      modifies this
      ensures Valid()
      ensures events == old(events) && loggedIn == old(loggedIn) && username == old(username)
      ensures url.None? || url == Some("") ==> r == Error(400, UrlRequired) && links == old(links)
      ensures url.Some? && url.value != "" && Prefix(uuid, 8) in old(links) ==>
        r.Error? && r.code == 500 && links == old(links)
      ensures url.Some? && url.value != "" && Prefix(uuid, 8) !in old(links) ==>
        var code := Prefix(uuid, 8);
        var trackingUrl := TrackingUrl(hostUrl, code);
        && links == old(links)[code := Link(code, url.value, code, now)]
        && r == LinkCreated(url.value, trackingUrl, code, base64(qrPng(trackingUrl)))
      ensures |links| == if r.LinkCreated? then |old(links)| + 1 else |old(links)|
      ensures r.LinkCreated? ==>
        && TrackLink(r.shortCode) == Landing(r.originalUrl, r.shortCode)
        && GetQrcode(r.shortCode, hostUrl) == QrImage(qrPng(r.trackingUrl))
    {
      if url.None? || url.value == "" {
        return Error(400, UrlRequired);
      }
      var code := Prefix(uuid, 8);
      if code in links {
        return Error(500, "UNIQUE constraint failed: links.id");
      }
      var link := Link(code, url.value, code, now);
      InsertResolves(links, link);
      links := links[code := link];
      var trackingUrl := TrackingUrl(hostUrl, code);
      r := LinkCreated(url.value, trackingUrl, code, base64(qrPng(trackingUrl)));
    }

    /** `GET /qrcode/<short_code>`: the QR image of the code's tracking URL, or 404 for an unknown code. */
    function GetQrcode(code: string, hostUrl: string): (r: Response)
      reads this
      requires Valid()
      ensures (exists k :: k in links && links[k].shortCode == code) ==> r == QrImage(qrPng(TrackingUrl(hostUrl, code)))
      ensures !(exists k :: k in links && links[k].shortCode == code) ==> r == Error(404, InvalidLink)
    {
      if FindByCode(links, code).None? then Error(404, InvalidLink)
      else QrImage(qrPng(TrackingUrl(hostUrl, code)))
    }

    /** `GET /t/<short_code>`: the landing page for the code's stored URL, or 404 for an unknown code. */
    function TrackLink(code: string): (r: Response)
      reads this
      requires Valid()
      ensures r.Landing? <==> exists k :: k in links && links[k].shortCode == code
      ensures forall k :: k in links && links[k].shortCode == code ==> r == Landing(links[k].originalUrl, code)
      ensures !r.Landing? ==> r == Error(404, InvalidLink)
    {
      match FindByCode(links, code)
      case None => Error(404, InvalidLink)
      case Some(link) => Landing(link.originalUrl, code)
    }

    /**
     * `POST /api/track`: stores one row stamped with the fresh id, the
     * caller's address and the server's clock, the client's fields copied
     * as sent, and echoes the client's own `originalUrl` back unchecked.
     */
    method ReceiveTrackingData(p: Payload, eventId: string, remoteAddr: Option<string>, now: string) returns (r: Response)
      requires Valid()
      modifies this
      ensures Valid()
      ensures links == old(links) && loggedIn == old(loggedIn) && username == old(username)
      ensures eventId in Ids(old(events)) ==> r.Error? && r.code == 500 && events == old(events)
      ensures eventId !in Ids(old(events)) ==>
        && events == old(events) + [TrackingEvent(eventId, remoteAddr, p.userAgent, p.screenResolution,
                                                  p.language, p.os, p.browser, p.location, now,
                                                  p.fingerprint, p.referrer)]
        && r == TrackAccepted(p.originalUrl)
    {
      if eventId in Ids(events) {
        return Error(500, "UNIQUE constraint failed: tracking_data.id");
      }
      var e := TrackingEvent(eventId, remoteAddr, p.userAgent, p.screenResolution, p.language,
                             p.os, p.browser, p.location, now, p.fingerprint, p.referrer);
      forall i, j | 0 <= i < j < |events + [e]| ensures (events + [e])[i].id != (events + [e])[j].id {
        if j == |events| {
          assert events[i] in events;
        }
      }
      events := events + [e];
      r := TrackAccepted(p.originalUrl);
    }

    /** `GET /dashboard`: every stored row, newest first, for a logged-in session; otherwise a redirect to the login page. */
    function Dashboard(): (r: Response)
      reads this
      requires Valid()
      ensures !loggedIn ==> r == Redirect("/login")
      ensures loggedIn ==>
        && r.DashboardPage?
        && r.username == username
        && SortedDesc(r.rows)
        && multiset(r.rows) == multiset(events)
    {
      if !IsLoggedIn() then Redirect("/login")
      else DashboardPage(SortDesc(events), username)
    }

    /** `DELETE /api/tracking/<tracking_id>`: removes the row with that key, if any, for a logged-in session. */
    method DeleteTrackingRecord(id: string) returns (r: Response)
      requires Valid()
      modifies this
      ensures Valid()
      ensures links == old(links) && loggedIn == old(loggedIn) && username == old(username)
      ensures !loggedIn ==> r == Error(403, Unauthorized) && events == old(events)
      ensures loggedIn ==> r == Deleted(RecordDeleted) && events == WithoutId(old(events), id)
    {
      if !IsLoggedIn() {
        return Error(403, Unauthorized);
      }
      WithoutIdKeepsDistinct(events, id);
      events := WithoutId(events, id);
      r := Deleted(RecordDeleted);
    }

    /** `DELETE /api/tracking`: empties the table for a logged-in session. */
    method DeleteAllTrackingRecords() returns (r: Response)
      requires Valid()
      modifies this
      ensures Valid()
      ensures links == old(links) && loggedIn == old(loggedIn) && username == old(username)
      ensures !loggedIn ==> r == Error(403, Unauthorized) && events == old(events)
      ensures loggedIn ==> r == Deleted(AllRecordsDeleted) && events == []
    {
      if !IsLoggedIn() {
        return Error(403, Unauthorized);
      }
      events := [];
      r := Deleted(AllRecordsDeleted);
    }
  }
}
