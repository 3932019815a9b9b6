/**
 * Sequences of requests against one application, showing what a client can
 * rely on from the handlers' contracts alone.
 */
module Scenarios {
  import opened Wrappers
  import opened Text
  import opened Records
  import opened EventsTable
  import opened Server

  /** Deleting a record twice answers the same both times, and the second call changes nothing. */
  method DeleteTwice(app: App, id: string) returns (first: Response, second: Response)
    requires app.Valid()
    modifies app
    ensures app.Valid()
    ensures first == second
    ensures app.links == old(app.links) && app.loggedIn == old(app.loggedIn) && app.username == old(app.username)
    ensures old(app.loggedIn) ==> app.events == WithoutId(old(app.events), id) && id !in Ids(app.events)
    ensures !old(app.loggedIn) ==> app.events == old(app.events)
  {
    first := app.DeleteTrackingRecord(id);
    ghost var afterFirst := app.events;
    second := app.DeleteTrackingRecord(id);
    if app.loggedIn {
      WithoutIdIdempotent(old(app.events), id);
      assert id !in Ids(afterFirst);
    }
  }

  /** Logging out twice leaves the same anonymous session as logging out once. */
  method LogoutTwice(app: App) returns (first: Response, second: Response)
    requires app.Valid()
    modifies app
    ensures app.Valid() && first == second
    ensures !app.loggedIn && app.username == None
    ensures app.links == old(app.links) && app.events == old(app.events)
  {
    first := app.Logout();
    second := app.Logout();
  }

  /**
   * An anonymous session is sent to the login page; after logging in with
   * the configured credentials the dashboard lists every row and deleting
   * everything succeeds.
   */
  method LoginUnlocksDashboard(app: App) returns (before: Response, after: Response, cleared: Response)
    requires app.Valid() && !app.loggedIn
    modifies app
    ensures before == Redirect("/login")
    ensures after.DashboardPage? && multiset(after.rows) == multiset(old(app.events))
    ensures after.username == Some(AdminUsername)
    ensures cleared.Status() == 200 && app.events == []
  {
    before := app.Dashboard();
    var login := app.Login(true, Some(AdminUsername), Some(AdminPassword));
    assert CredentialsMatch(app.hash, Some(AdminUsername), AdminPassword);
    after := app.Dashboard();
    cleared := app.DeleteAllTrackingRecords();
  }

  /** Three rows stored at increasing times are listed third, second, first. */
  lemma ThreeRowsNewestFirst(s: seq<TrackingEvent>)
    requires |s| == 3 && LexLt(s[0].timestamp, s[1].timestamp) && LexLt(s[1].timestamp, s[2].timestamp)
    ensures SortDesc(s) == [s[2], s[1], s[0]]
  {
    forall i, j | 0 <= i < j < |s| ensures LexLt(s[i].timestamp, s[j].timestamp) {
      if i == 0 && j == 2 {
        LexLeTransitive(s[0].timestamp, s[1].timestamp, s[2].timestamp);
        if s[0].timestamp == s[2].timestamp {
          LexLeAntisymmetric(s[0].timestamp, s[1].timestamp);
        }
      }
    }
    NewestFirst(s);
    assert Reverse(s) == [s[2], s[1], s[0]];
  }

  /** Three visits recorded on an empty table are stored in the order they arrived. */
  method RecordThreeVisits(app: App, p1: Payload, p2: Payload, p3: Payload,
                           id1: string, id2: string, id3: string,
                           ip: Option<string>, t1: string, t2: string, t3: string)
    requires app.Valid() && app.events == []
    requires id1 != id2 && id1 != id3 && id2 != id3
    modifies app
    ensures app.Valid() && app.loggedIn == old(app.loggedIn)
    ensures |app.events| == 3
    ensures app.events[0].id == id1 && app.events[1].id == id2 && app.events[2].id == id3
    ensures app.events[0].timestamp == t1 && app.events[1].timestamp == t2 && app.events[2].timestamp == t3
  {
    var r1 := app.ReceiveTrackingData(p1, id1, ip, t1);
    assert |app.events| == 1 && app.events[0].id == id1 && app.events[0].timestamp == t1;
    var r2 := app.ReceiveTrackingData(p2, id2, ip, t2);
    assert |app.events| == 2 && app.events[1].id == id2 && app.events[1].timestamp == t2;
    var r3 := app.ReceiveTrackingData(p3, id3, ip, t3);
  }

  /** Three visits recorded at increasing times are listed newest first. */
  method ThreeVisitsNewestFirst(app: App, p1: Payload, p2: Payload, p3: Payload,
                                id1: string, id2: string, id3: string,
                                ip: Option<string>, t1: string, t2: string, t3: string)
      returns (listing: Response)
    requires app.Valid() && app.events == [] && app.loggedIn
    requires id1 != id2 && id1 != id3 && id2 != id3
    requires LexLt(t1, t2) && LexLt(t2, t3)
    modifies app
    ensures listing.DashboardPage? && |listing.rows| == 3
    ensures listing.rows[0].id == id3 && listing.rows[1].id == id2 && listing.rows[2].id == id1
  {
    RecordThreeVisits(app, p1, p2, p3, id1, id2, id3, ip, t1, t2, t3);
    ghost var s := app.events;
    ThreeRowsNewestFirst(s);
    listing := app.Dashboard();
    assert listing.rows == [s[2], s[1], s[0]];
  }
}
