/** Any number of connections whose requests are handled one at a time, in any order: what every run of
    login, logout, cd and the rest keeps. Source: src/server/client_controller.cpp:62-72, 120-133,
    342-377, 477-490, src/server/io.hpp:41-73. */
module Sessions {
  import opened Protocol
  import opened Files
  import opened Handlers
  import opened Clients
  import opened Transfers
  import Paths

  datatype House = House(sessions: seq<Session>, shared: Shared)

  /** Connection i's next request. */
  datatype Event = Event(i: nat, data: seq<byte>)

  predicate Allowed(h: House, e: Event) {
    e.i < |h.sessions| && |e.data| >= HEADER_SIZE && Modelled(e.data[1])
  }

  function Step(cfg: Config, h: House, e: Event): House
    requires Allowed(h, e)
  {
    var out := Handle(cfg, e.data[1], e.data, h.sessions[e.i], h.shared);
    House(h.sessions[e.i := out.sess], out.shared)
  }

  ghost predicate IsRun(cfg: Config, h: House, es: seq<Event>)
    decreases |es|, 0
  {
    es == [] ||
    (var n := |es| - 1; IsRun(cfg, h, es[..n]) && Allowed(After(cfg, h, es[..n]), es[n]))
  }

  ghost function After(cfg: Config, h: House, es: seq<Event>): House
    requires IsRun(cfg, h, es)
    decreases |es|, 1
  {
    if es == [] then h
    else
      var n := |es| - 1;
      Step(cfg, After(cfg, h, es[..n]), es[n])
  }

  /** What an event is answered with. */
  function Answer(cfg: Config, h: House, e: Event): seq<byte>
    requires Allowed(h, e)
  {
    Handle(cfg, e.data[1], e.data, h.sessions[e.i], h.shared).reply
  }

  /** Every beginning of a run is a run, and goes on with the next event. */
  lemma {:induction false} Beginning(cfg: Config, h: House, es: seq<Event>, k: nat)
    requires IsRun(cfg, h, es) && k <= |es|
    ensures IsRun(cfg, h, es[..k]) && |After(cfg, h, es[..k]).sessions| == |h.sessions|
    ensures k < |es| ==> Allowed(After(cfg, h, es[..k]), es[k])
    ensures k < |es| ==> IsRun(cfg, h, es[..k + 1])
    ensures k < |es| ==> After(cfg, h, es[..k + 1]) == Step(cfg, After(cfg, h, es[..k]), es[k])
    decreases |es|
  {
    hide Handle;
    var n := |es| - 1;
    if k == |es| {
      assert es[..k] == es;
      if k > 0 {
        Beginning(cfg, h, es[..n], n);
        assert es[..n][..n] == es[..n];
      }
    } else {
      assert es[..n][..k] == es[..k];
      Beginning(cfg, h, es[..n], k);
      if k < n {
        assert es[..n][..k + 1] == es[..k + 1] && es[..n][k] == es[k];
      } else {
        assert es[..k + 1] == es && es[..k] == es[..n];
      }
    }
  }

  ghost predicate AllRooted(h: House) {
    forall i :: 0 <= i < |h.sessions| ==> SessionRooted(h.sessions[i])
  }

  function Opening(n: nat, files: Disk): House {
    House(seq(n, _ => FRESH), Shared(files, false))
  }

  lemma {:induction false} RunKeepsRoot(cfg: Config, h: House, es: seq<Event>)
    requires GoodIds(cfg) && AllRooted(h) && IsRun(cfg, h, es)
    ensures AllRooted(After(cfg, h, es))
    decreases |es|
  {
    hide Handle, SessionRooted;
    if es != [] {
      var n := |es| - 1;
      var now := After(cfg, h, es[..n]);
      RunKeepsRoot(cfg, h, es[..n]);
      HandleKeepsRoot(cfg, es[n].data[1], es[n].data, now.sessions[es[n].i], now.shared);
    }
  }

  /** In every run, a handler past the login gate works in a directory of its own user's tree; and any
      file name it accepts, other than the empty and the two dot names, stays in that tree. */
  lemma HandlersStayHome(cfg: Config, n: nat, files: Disk, es: seq<Event>, i: nat, name: string)
    requires GoodIds(cfg) && IsRun(cfg, Opening(n, files), es)
    requires i < |After(cfg, Opening(n, files), es).sessions|
    requires After(cfg, Opening(n, files), es).sessions[i].id != ""
    ensures var s := After(cfg, Opening(n, files), es).sessions[i];
            && Paths.Rooted(s.dir, s.id)
            && (name != "" && Paths.IsValidFilename(name) ==>
                  (Paths.Rooted(OpenPath(s.dir, name), s.id) <==> name != "." && name != ".."))
            && (name != "" && Paths.IsValidFilename(name) && |s.dir| + 1 + |name| <= 511 ==>
                  (Paths.Rooted(StartPath(s.dir, name), s.id) <==> name != "." && name != ".."))
  {
    hide Handle, Paths.IsValidFilename, Paths.Rooted;
    RunKeepsRoot(cfg, Opening(n, files), es);
    var h := After(cfg, Opening(n, files), es);
    assert SessionRooted(h.sessions[i]);
    if name != "" && Paths.IsValidFilename(name) {
      Paths.ValidNameAddsOneComponent(h.sessions[i].dir, h.sessions[i].id, name);
      if |h.sessions[i].dir| + 1 + |name| <= 511 {
        UploadLands(h.sessions[i].dir, h.sessions[i].id, name);
      }
    }
  }

  /** Every logged-in session is in a directory that is there. */
  ghost predicate AllHoused(cfg: Config, h: House) {
    forall i :: 0 <= i < |h.sessions| ==> h.sessions[i].id != "" ==> h.sessions[i].dir in cfg.dirs
  }

  lemma HandleKeepsHouse(cfg: Config, command: byte, data: seq<byte>, sess: Session, shared: Shared)
    requires Modelled(command) && SessionRooted(sess) && Paths.HasParents(cfg.dirs)
    requires forall who :: who in cfg.users ==> "./tmp" + "/" + cfg.users[who].id in cfg.dirs
    requires sess.id != "" ==> sess.dir in cfg.dirs
    ensures var s := Handle(cfg, command, data, sess, shared).sess; s.id != "" ==> s.dir in cfg.dirs
  {
    hide WriteAt, ChunkAt, StartPath, OpenPath, StartName, OpenName, ChunkIndex, Destination, Credentials;
    hide Paths.IsValidFilename, Paths.Cd, Paths.Rooted;
    if command == REQ_CHANGE_WORKING_DIRECTORY && sess.id != ""
      && Paths.Cd(cfg.dirs, sess.dir, Destination(data)) != "" {
      Paths.CdLeadsToDirectory(cfg.dirs, sess.dir, Destination(data), sess.id);
    }
  }

  /** In every run, whatever names cd is given, each logged-in session is in a directory that is there, if
      the users' own are. */
  lemma {:induction false} RunKeepsHouse(cfg: Config, h: House, es: seq<Event>)
    requires GoodIds(cfg) && AllRooted(h) && IsRun(cfg, h, es) && Paths.HasParents(cfg.dirs)
    requires forall who :: who in cfg.users ==> "./tmp" + "/" + cfg.users[who].id in cfg.dirs
    requires AllHoused(cfg, h)
    ensures AllHoused(cfg, After(cfg, h, es))
    decreases |es|
  {
    hide Handle, SessionRooted, Paths.HasParents;
    if es != [] {
      var n := |es| - 1;
      var now := After(cfg, h, es[..n]);
      RunKeepsHouse(cfg, h, es[..n]);
      RunKeepsRoot(cfg, h, es[..n]);
      HandleKeepsHouse(cfg, es[n].data[1], es[n].data, now.sessions[es[n].i], now.shared);
    }
  }

  // ---------- who is logged in ----------

  /** A login with credentials the server knows. */
  predicate KnownLogin(cfg: Config, e: Event) {
    |e.data| >= HEADER_SIZE && e.data[1] == REQ_LOGIN && Credentials(e.data) in cfg.users
  }

  function AccountOf(cfg: Config, e: Event): Account
    requires KnownLogin(cfg, e)
  {
    cfg.users[Credentials(e.data)]
  }

  /** A second administrator, turned away while another is connected. */
  predicate TurnedAway(cfg: Config, h: House, e: Event) {
    KnownLogin(cfg, e) && AccountOf(cfg, e).admin && h.shared.adminConnected
  }

  predicate Logout(e: Event) {
    |e.data| >= HEADER_SIZE && e.data[1] == REQ_LOGOUT
  }

  /** Who a session belongs to after an event. A login with unknown credentials leaves it as it was, a
      second administrator's ends it. */
  lemma WhoAfter(cfg: Config, h: House, e: Event, i: nat)
    requires Allowed(h, e) && i < |h.sessions|
    ensures Step(cfg, h, e).sessions[i].id ==
            if e.i != i then h.sessions[i].id
            else if Logout(e) || TurnedAway(cfg, h, e) then ""
            else if KnownLogin(cfg, e) then AccountOf(cfg, e).id
            else h.sessions[i].id
    ensures e.i == i && TurnedAway(cfg, h, e) ==>
              Step(cfg, h, e).sessions[i].dir == "" && Answer(cfg, h, e) == Sample(RESP_ADMIN_ALREADY_CONNECTED)
    ensures e.i == i && e.data[1] == REQ_LOGIN && !KnownLogin(cfg, e) ==>
              Step(cfg, h, e) == h && Answer(cfg, h, e) == Sample(RESP_BAD_LOGIN)
  {
    hide WriteAt, ChunkAt, StartPath, OpenPath, StartName, OpenName, ChunkIndex, Destination, Credentials;
    hide Paths.IsValidFilename, Paths.Cd;
    if e.i == i {
      assert h.sessions[e.i := h.sessions[e.i]] == h.sessions;
    }
  }

  /** Event k let connection i in as user x, and no event of i after it has logged it out or in again. */
  ghost predicate LetIn(cfg: Config, h: House, es: seq<Event>, i: nat, x: string, k: nat)
    requires IsRun(cfg, h, es)
  {
    && k < |es| && IsRun(cfg, h, es[..k]) && es[k].i == i
    && KnownLogin(cfg, es[k]) && !TurnedAway(cfg, After(cfg, h, es[..k]), es[k]) && AccountOf(cfg, es[k]).id == x
    && forall m :: k < m < |es| && es[m].i == i ==> !Logout(es[m]) && !KnownLogin(cfg, es[m])
  }

  /** Connection i has been let in as user x, and has not been out or in since. */
  ghost predicate InAs(cfg: Config, h: House, es: seq<Event>, i: nat, x: string)
    requires IsRun(cfg, h, es)
  {
    exists k: nat :: LetIn(cfg, h, es, i, x, k)
  }

  /** LetIn one event later. */
  lemma LetInNext(cfg: Config, h: House, es: seq<Event>, i: nat, x: string, k: nat)
    requires IsRun(cfg, h, es) && es != []
    ensures var n := |es| - 1;
            var e := es[n];
            LetIn(cfg, h, es, i, x, k) <==>
            if k < n then LetIn(cfg, h, es[..n], i, x, k) && !(e.i == i && (Logout(e) || KnownLogin(cfg, e)))
            else k == n && e.i == i && KnownLogin(cfg, e) && !TurnedAway(cfg, After(cfg, h, es[..n]), e) &&
                 AccountOf(cfg, e).id == x
  {
    hide Handle, Logout, KnownLogin, Step;
    var n := |es| - 1;
    if k < n {
      Beginning(cfg, h, es, k);
      assert es[..n][..k] == es[..k] && es[..n][k] == es[k];
      assert forall m :: k < m < n ==> es[..n][m] == es[m];
    }
  }

  /** In every run a session is user x's if and only if some event of its own let it in as x and none since
      has logged it out, or in as another, or been turned away: nobody gets in without the credentials, nobody
      stays in after a logout, and other connections play no part. */
  lemma {:induction false} LoggedInIff(cfg: Config, n: nat, files: Disk, es: seq<Event>, i: nat, x: string)
    requires IsRun(cfg, Opening(n, files), es) && i < n && x != ""
    ensures |After(cfg, Opening(n, files), es).sessions| == n
    ensures After(cfg, Opening(n, files), es).sessions[i].id == x <==>
            InAs(cfg, Opening(n, files), es, i, x)
    decreases |es|
  {
    hide Handle, Credentials, Step, InAs;
    var h := Opening(n, files);
    if es == [] {
      NoneLetIn(cfg, h, i, x);
    } else {
      var last := |es| - 1;
      LoggedInIff(cfg, n, files, es[..last], i, x);
      WhoAfter(cfg, After(cfg, h, es[..last]), es[last], i);
      SessionCount(cfg, After(cfg, h, es[..last]), es[last]);
      LetInCases(cfg, h, es, i, x);
    }
  }

  lemma SessionCount(cfg: Config, h: House, e: Event)
    requires Allowed(h, e)
    ensures |Step(cfg, h, e).sessions| == |h.sessions|
  {
    hide Handle;
  }

  lemma NoneLetIn(cfg: Config, h: House, i: nat, x: string)
    ensures !InAs(cfg, h, [], i, x)
  {
  }

  /** InAs one event later. */
  lemma LetInCases(cfg: Config, h: House, es: seq<Event>, i: nat, x: string)
    requires IsRun(cfg, h, es) && es != []
    ensures var last := |es| - 1;
            var e := es[last];
            InAs(cfg, h, es, i, x) <==>
            if e.i == i && (Logout(e) || KnownLogin(cfg, e)) then
              KnownLogin(cfg, e) && !TurnedAway(cfg, After(cfg, h, es[..last]), e) && AccountOf(cfg, e).id == x
            else InAs(cfg, h, es[..last], i, x)
  {
    hide Handle, Step, LetIn, KnownLogin, Logout, TurnedAway, After, IsRun;
    var last := |es| - 1;
    var e := es[last];
    Beginning(cfg, h, es, last);
    if k: nat :| LetIn(cfg, h, es, i, x, k) {
      LetInNext(cfg, h, es, i, x, k);
    }
    if e.i == i && (Logout(e) || KnownLogin(cfg, e)) {
      LetInNext(cfg, h, es, i, x, last);
    } else if k: nat :| LetIn(cfg, h, es[..last], i, x, k) {
      InBounds(cfg, h, es[..last], i, x, k);
      LetInNext(cfg, h, es, i, x, k);
    }
  }

  lemma InBounds(cfg: Config, h: House, es: seq<Event>, i: nat, x: string, k: nat)
    requires IsRun(cfg, h, es) && LetIn(cfg, h, es, i, x, k)
    ensures k < |es|
  {
  }

  /** The client that asks who it is is told the user it got in as, and that it is not logged in exactly when
      it has got in as nobody. */
  lemma UserIsWhoGotIn(cfg: Config, n: nat, files: Disk, es: seq<Event>, e: Event, x: string)
    requires IsRun(cfg, Opening(n, files), es) && Allowed(After(cfg, Opening(n, files), es), e) && e.i < n
    requires e.data[1] == REQ_GET_CURRENT_USER && x != "" && FitsField(x, 255)
    ensures var h := Opening(n, files);
            var reply := Answer(cfg, After(cfg, h, es), e);
            InAs(cfg, h, es, e.i, x) ==> reply[1] == RESP_CURRENT_USER && UserOf(reply) == x
    ensures var h := Opening(n, files);
            Answer(cfg, After(cfg, h, es), e) == Sample(RESP_NOT_LOGGED_IN) <==>
            forall y :: y != "" ==> !InAs(cfg, h, es, e.i, y)
  {
    hide InAs, Step;
    var now := After(cfg, Opening(n, files), es);
    forall y | y != "" ensures InAs(cfg, Opening(n, files), es, e.i, y) <==> now.sessions[e.i].id == y {
      LoggedInIff(cfg, n, files, es, e.i, y);
    }
    if now.sessions[e.i].id == x {
      UserIsTold(cfg, e.data, now.sessions[e.i], now.shared);
    }
    if now.sessions[e.i].id != "" {
      assert InAs(cfg, Opening(n, files), es, e.i, now.sessions[e.i].id);
    }
  }

  /** Event k let connection i in as an administrator. */
  ghost predicate LetInAsAdmin(cfg: Config, h: House, es: seq<Event>, i: nat, k: nat)
    requires IsRun(cfg, h, es)
  {
    && k < |es| && IsRun(cfg, h, es[..k]) && es[k].i == i && KnownLogin(cfg, es[k]) && AccountOf(cfg, es[k]).admin
    && !After(cfg, h, es[..k]).shared.adminConnected
  }

  ghost predicate EverAdmin(cfg: Config, h: House, es: seq<Event>, i: nat)
    requires IsRun(cfg, h, es)
  {
    exists k: nat :: LetInAsAdmin(cfg, h, es, i, k)
  }

  lemma AdminAfter(cfg: Config, h: House, e: Event, i: nat)
    requires Allowed(h, e) && i < |h.sessions|
    ensures Step(cfg, h, e).sessions[i].admin <==>
            h.sessions[i].admin ||
            (e.i == i && KnownLogin(cfg, e) && AccountOf(cfg, e).admin && !h.shared.adminConnected)
  {
    hide WriteAt, ChunkAt, StartPath, OpenPath, StartName, OpenName, ChunkIndex, Destination, Credentials;
    hide Paths.IsValidFilename, Paths.Cd;
  }

  lemma EverAdminNext(cfg: Config, h: House, es: seq<Event>, i: nat)
    requires IsRun(cfg, h, es) && es != []
    ensures var last := |es| - 1;
            var e := es[last];
            EverAdmin(cfg, h, es, i) <==>
            || EverAdmin(cfg, h, es[..last], i)
            || (e.i == i && KnownLogin(cfg, e) && AccountOf(cfg, e).admin &&
                !After(cfg, h, es[..last]).shared.adminConnected)
  {
    hide Handle, Step, KnownLogin;
    var last := |es| - 1;
    if k: nat :| LetInAsAdmin(cfg, h, es, i, k) {
      assert k < last ==> es[..last][..k] == es[..k] && es[..last][k] == es[k];
      assert k < last ==> LetInAsAdmin(cfg, h, es[..last], i, k);
    }
    if k: nat :| LetInAsAdmin(cfg, h, es[..last], i, k) {
      assert es[..last][..k] == es[..k] && es[..last][k] == es[k];
      assert LetInAsAdmin(cfg, h, es, i, k);
    }
    assert LetInAsAdmin(cfg, h, es, i, last) <==>
           es[last].i == i && KnownLogin(cfg, es[last]) && AccountOf(cfg, es[last]).admin &&
           !After(cfg, h, es[..last]).shared.adminConnected;
  }

  /** In every run a connection counts as an administrator's if and only if it has at some time been let in as
      one: no logout and no later login takes that back. */
  lemma {:induction false} AdminIff(cfg: Config, n: nat, files: Disk, es: seq<Event>, i: nat)
    requires IsRun(cfg, Opening(n, files), es) && i < n
    ensures |After(cfg, Opening(n, files), es).sessions| == n
    ensures After(cfg, Opening(n, files), es).sessions[i].admin <==> EverAdmin(cfg, Opening(n, files), es, i)
    decreases |es|
  {
    hide Handle, KnownLogin, Step, EverAdmin;
    var h := Opening(n, files);
    if es == [] {
      NeverAdminYet(cfg, h, i);
    } else {
      var last := |es| - 1;
      AdminIff(cfg, n, files, es[..last], i);
      AdminAfter(cfg, After(cfg, h, es[..last]), es[last], i);
      SessionCount(cfg, After(cfg, h, es[..last]), es[last]);
      EverAdminNext(cfg, h, es, i);
    }
  }

  lemma NeverAdminYet(cfg: Config, h: House, i: nat)
    ensures !EverAdmin(cfg, h, [], i)
  {
  }

  // ---------- a session that has ended ----------

  /** What a connection that is not logged in gets: but for a login with known credentials every request
      leaves the session and the files as they are, and all but login, ping and logout are refused. */
  ghost predicate Refused(cfg: Config, h: House, e: Event)
    requires Allowed(h, e)
  {
    var t := Step(cfg, h, e);
    && t.sessions == h.sessions && t.shared.files == h.shared.files
    && (e.data[1] != REQ_LOGOUT ==> t.shared == h.shared)
    && Answer(cfg, h, e) == Sample(if e.data[1] == REQ_LOGIN then RESP_BAD_LOGIN
                                   else if e.data[1] == REQ_PING then RESP_PONG
                                   else if e.data[1] == REQ_LOGOUT then RESP_OK
                                   else RESP_NOT_LOGGED_IN)
  }

  lemma OutIsRefused(cfg: Config, h: House, e: Event)
    requires Allowed(h, e) && h.sessions[e.i].id == "" && !KnownLogin(cfg, e)
    ensures Refused(cfg, h, e)
  {
    var sess := h.sessions[e.i];
    assert h.sessions[e.i := sess] == h.sessions;
    assert sess.(id := "") == sess;
  }

  lemma OthersStay(cfg: Config, h: House, e: Event, i: nat)
    requires Allowed(h, e) && i < |h.sessions| && i != e.i
    ensures Step(cfg, h, e).sessions[i] == h.sessions[i]
  {
    hide Handle;
  }

  /** While connection i, not logged in, sends no login the server knows, its session does not change. */
  lemma {:induction false} StaysOut(cfg: Config, h: House, es: seq<Event>, i: nat, a: nat, k: nat)
    requires IsRun(cfg, h, es) && a <= k <= |es| && i < |h.sessions|
    requires IsRun(cfg, h, es[..a]) && |After(cfg, h, es[..a]).sessions| == |h.sessions|
    requires After(cfg, h, es[..a]).sessions[i].id == ""
    requires forall m :: a <= m < k && es[m].i == i ==> !KnownLogin(cfg, es[m])
    ensures IsRun(cfg, h, es[..k]) && |After(cfg, h, es[..k]).sessions| == |h.sessions|
    ensures After(cfg, h, es[..k]).sessions[i] == After(cfg, h, es[..a]).sessions[i]
    decreases k
  {
    hide Handle, KnownLogin, Step, After, IsRun;
    if a < k {
      StaysOut(cfg, h, es, i, a, k - 1);
      Beginning(cfg, h, es, k - 1);
      Beginning(cfg, h, es, k);
      var now := After(cfg, h, es[..k - 1]);
      if es[k - 1].i == i {
        OutIsRefused(cfg, now, es[k - 1]);
      } else {
        OthersStay(cfg, now, es[k - 1], i);
      }
    }
  }

  /** In every run a logout ends the session, and so does a login turned away because an administrator is
      connected already: until its next login with known credentials the connection changes no file and not
      its own session, and all it is told is that it is not logged in. */
  lemma LogoutEndsSession(cfg: Config, h: House, es: seq<Event>, i: nat, a: nat, k: nat)
    requires IsRun(cfg, h, es) && a < k < |es| && i < |h.sessions| && es[a].i == i && es[k].i == i
    requires IsRun(cfg, h, es[..a]) && (Logout(es[a]) || TurnedAway(cfg, After(cfg, h, es[..a]), es[a]))
    requires forall m :: a < m <= k && es[m].i == i ==> !KnownLogin(cfg, es[m])
    ensures IsRun(cfg, h, es[..k]) && Allowed(After(cfg, h, es[..k]), es[k])
    ensures Refused(cfg, After(cfg, h, es[..k]), es[k])
  {
    hide Handle, KnownLogin, Logout, Step, After, IsRun, Refused;
    Beginning(cfg, h, es, a);
    Beginning(cfg, h, es, a + 1);
    WhoAfter(cfg, After(cfg, h, es[..a]), es[a], i);
    StaysOut(cfg, h, es, i, a + 1, k);
    Beginning(cfg, h, es, k);
    OutIsRefused(cfg, After(cfg, h, es[..k]), es[k]);
  }

  // ---------- the one administrator ----------

  ghost predicate OneAdmin(h: House) {
    && (forall i, j :: 0 <= i < |h.sessions| && 0 <= j < |h.sessions| && h.sessions[i].admin && h.sessions[j].admin ==>
          i == j)
    && (forall i :: 0 <= i < |h.sessions| && h.sessions[i].admin ==> h.shared.adminConnected)
  }

  /** The requests that break it: a logout by an administrator's session. */
  predicate AdminLogout(h: House, e: Event)
    requires Allowed(h, e)
  {
    e.data[1] == REQ_LOGOUT && h.sessions[e.i].admin
  }

  /** One request keeps the flag up for a lone administrator exactly when it is not an administrator's logout. */
  lemma OneAdminStepIff(cfg: Config, h: House, e: Event)
    requires Allowed(h, e) && OneAdmin(h)
    ensures OneAdmin(Step(cfg, h, e)) <==> !AdminLogout(h, e)
  {
    var t := Step(cfg, h, e);
    if AdminLogout(h, e) {
      assert t.sessions[e.i].admin && !t.shared.adminConnected;
    } else {
      AdminChange(cfg, e.data, h.sessions[e.i], h.shared);
    }
  }

  lemma AdminChange(cfg: Config, data: seq<byte>, sess: Session, shared: Shared)
    requires |data| >= HEADER_SIZE && Modelled(data[1]) && !(data[1] == REQ_LOGOUT && sess.admin)
    ensures var out := Handle(cfg, data[1], data, sess, shared);
            && (sess.admin ==> out.sess.admin)
            && (shared.adminConnected ==> out.shared.adminConnected)
            && (out.sess.admin && !sess.admin ==> !shared.adminConnected && out.shared.adminConnected)
  {
  }

  /** So two connections can both be administrators: one logs in and out, then the other logs in. */
  lemma TwoAdmins(cfg: Config, user: string, password: string, files: Disk) returns (es: seq<Event>)
    requires FitsField(user, 64) && FitsField(password, 64)
    requires (user, password) in cfg.users && cfg.users[(user, password)].admin
    ensures IsRun(cfg, Opening(2, files), es)
    ensures var h := After(cfg, Opening(2, files), es);
            |h.sessions| == 2 && h.sessions[0].admin && h.sessions[1].admin
  {
    hide LoginPacket, Credentials, Handle;
    var login := LoginPacket(user, password);
    var logout := MakePacket(REQ_LOGOUT, []);
    CredentialsAre(user, password);
    var e1, e2, e3 := Event(0, login), Event(0, logout), Event(1, login);
    var h0 := Opening(2, files);
    AdminGetsIn(cfg, h0, e1);
    RunSnoc(cfg, h0, [], e1);
    var h1 := Step(cfg, h0, e1);
    AdminGetsOut(cfg, h1, e2);
    RunSnoc(cfg, h0, [] + [e1], e2);
    var h2 := Step(cfg, h1, e2);
    AdminGetsIn(cfg, h2, e3);
    RunSnoc(cfg, h0, [] + [e1] + [e2], e3);
    es := [] + [e1] + [e2] + [e3];
  }

  lemma AdminGetsIn(cfg: Config, h: House, e: Event)
    requires Allowed(h, e) && KnownLogin(cfg, e) && AccountOf(cfg, e).admin && !h.shared.adminConnected
    ensures var t := Step(cfg, h, e);
            && t.shared.adminConnected && |t.sessions| == |h.sessions| && t.sessions[e.i].admin
            && forall j :: 0 <= j < |h.sessions| && j != e.i ==> t.sessions[j] == h.sessions[j]
  {
    hide Credentials;
  }

  /** The session's own flag stays. */
  lemma AdminGetsOut(cfg: Config, h: House, e: Event)
    requires Allowed(h, e) && Logout(e) && h.sessions[e.i].admin
    ensures var t := Step(cfg, h, e);
            && !t.shared.adminConnected && |t.sessions| == |h.sessions| && t.sessions[e.i].admin
            && forall j :: 0 <= j < |h.sessions| && j != e.i ==> t.sessions[j] == h.sessions[j]
  {
  }

  lemma RunSnoc(cfg: Config, h: House, es: seq<Event>, e: Event)
    requires IsRun(cfg, h, es) && Allowed(After(cfg, h, es), e)
    ensures IsRun(cfg, h, es + [e]) && After(cfg, h, es + [e]) == Step(cfg, After(cfg, h, es), e)
  {
    hide Handle;
    assert (es + [e])[..|es|] == es;
  }
}
