/** Who may hold an accepted token: the login decision, token refresh and logout,
    and the administrators' actions, each taken as one atomic step:
    internal/httpapi/commander_allowlist.go,
    internal/httpapi/kaine_admin_commanders.go,
    internal/httpapi/commander_auth.go, internal/authz/groups.go. */
module CommanderAccess {
  import opened Basics
  import opened RedisSets
  import opened CommanderSessions

  type Uuid = string

  const NIL_UUID: Uuid := ""

  /** A commander's row; the link is the UUID of an Authentik user. */
  datatype Row = Row(link: Option<Uuid>, approved: bool)

  type Rows = map<string, Row>

  /** The groups of each Authentik user. */
  type Directory = map<Uuid, seq<string>>

  predicate Linked(row: Row) {
    row.link.Some? && row.link.value != NIL_UUID
  }

  // ----- The login decision -----

  function GroupScopes(group: string): set<string> {
    if group == "kaine-god" then {"admin", "llm_operator", "kaine_chat", "galaxy_read", "kaine_mining"}
    else if group in ["kaine-approved", "kaine-chat", "kaine-chat-test", "kaine-chat-debug"] then
      {"kaine_chat", "galaxy_read", "kaine_mining"}
    else if group == "edin-copilot" then {"copilot_chat", "galaxy_read", "commander_data"}
    else if group == "edin-copilot-trusted" then {"copilot_chat", "galaxy_read", "commander_data", "kaine_mining"}
    else {}
  }

  /** ScopesForGroups on the first n groups. */
  function ScopesTo(groups: seq<string>, n: nat): set<string>
    requires n <= |groups|
  {
    if n == 0 then {} else ScopesTo(groups, n - 1) + GroupScopes(groups[n - 1])
  }

  lemma {:induction false} ScopesUnion(groups: seq<string>, n: nat, scope: string)
    requires n <= |groups|
    ensures scope in ScopesTo(groups, n) <==> exists i | 0 <= i < n :: scope in GroupScopes(groups[i])
  {
    if n > 0 {
      ScopesUnion(groups, n - 1, scope);
    }
  }

  /** Which groups give a scope. */
  lemma ScopesByGroup(group: string)
    ensures var chats := group in {"kaine-approved", "kaine-chat", "kaine-chat-test", "kaine-chat-debug"};
            var copilots := group in {"edin-copilot", "edin-copilot-trusted"};
            var scopes := GroupScopes(group);
            && ("admin" in scopes <==> group == "kaine-god")
            && ("llm_operator" in scopes <==> group == "kaine-god")
            && ("kaine_chat" in scopes <==> group == "kaine-god" || chats)
            && ("kaine_mining" in scopes <==> group == "kaine-god" || chats || group == "edin-copilot-trusted")
            && ("galaxy_read" in scopes <==> group == "kaine-god" || chats || copilots)
            && ("copilot_chat" in scopes <==> copilots)
            && ("commander_data" in scopes <==> copilots)
            && scopes <= {"admin", "llm_operator", "kaine_chat", "kaine_mining", "galaxy_read", "copilot_chat",
                          "commander_data"}
  {
  }

  datatype Service = Up | Down | Absent

  datatype Decision = Allowed(scopes: set<string>) | Denied(reason: string)

  /** resolveCommanderAccess */
  function Decide(rows: Rows, users: Directory, fid: string, repo: Service, authentik: Service): Decision {
    if repo.Absent? then Denied("not_on_allowlist")
    else if repo.Down? then Denied("authentik_unreachable")
    else if fid !in rows then Denied("not_on_allowlist")
    else if !rows[fid].approved || !Linked(rows[fid]) then Denied("awaiting_approval")
    else if !authentik.Up? then Denied("authentik_unreachable")
    else if rows[fid].link.value !in users then Denied("authentik_user_missing")
    else
      var groups := users[rows[fid].link.value];
      var scopes := ScopesTo(groups, |groups|);
      if scopes == {} then Denied("no_scopes_granted") else Allowed(scopes)
  }

  /** A login is let in exactly for an approved and linked commander whose Authentik
      user is found and is in a group that grants something. */
  lemma AllowedExactly(rows: Rows, users: Directory, fid: string, repo: Service, authentik: Service)
    ensures Decide(rows, users, fid, repo, authentik).Allowed?
       <==> && repo.Up? && authentik.Up?
            && fid in rows && rows[fid].approved && Linked(rows[fid])
            && rows[fid].link.value in users
            && var groups := users[rows[fid].link.value];
               exists i | 0 <= i < |groups| :: GroupScopes(groups[i]) != {}
  {
    if fid in rows && Linked(rows[fid]) && rows[fid].link.value in users {
      var groups := users[rows[fid].link.value];
      if i :| 0 <= i < |groups| && GroupScopes(groups[i]) != {} {
        var scope :| scope in GroupScopes(groups[i]);
        ScopesUnion(groups, |groups|, scope);
      }
      if ScopesTo(groups, |groups|) != {} {
        var scope :| scope in ScopesTo(groups, |groups|);
        ScopesUnion(groups, |groups|, scope);
        var i :| 0 <= i < |groups| && scope in GroupScopes(groups[i]);
        assert GroupScopes(groups[i]) != {};
      }
    }
  }

  /** Each refusal under its own guard, and exactly the scopes of the user's groups. */
  lemma DecidesExactly(rows: Rows, users: Directory, fid: string, repo: Service, authentik: Service)
    ensures var decision := Decide(rows, users, fid, repo, authentik);
            var admitted := fid in rows && rows[fid].approved && HasLink(rows, fid);
            var found := repo.Up? && admitted && authentik.Up? && rows[fid].link.value in users;
            && (decision == Denied("not_on_allowlist") <==> repo.Absent? || (repo.Up? && fid !in rows))
            && (decision == Denied("awaiting_approval") <==> repo.Up? && fid in rows && !admitted)
            && (decision == Denied("authentik_unreachable")
                <==> repo.Down? || (repo.Up? && admitted && !authentik.Up?))
            && (decision == Denied("authentik_user_missing")
                <==> repo.Up? && admitted && authentik.Up? && rows[fid].link.value !in users)
            && (decision.Denied? ==>
                  decision.reason in {"not_on_allowlist", "awaiting_approval", "authentik_unreachable",
                                      "authentik_user_missing", "no_scopes_granted"})
            && (decision == Denied("no_scopes_granted")
                <==> found && forall g | g in users[rows[fid].link.value] :: GroupScopes(g) == {})
            && (decision.Allowed? ==>
                  var groups := users[rows[fid].link.value];
                  forall scope :: scope in decision.scopes <==> exists g | g in groups :: scope in GroupScopes(g))
  {
    AllowedExactly(rows, users, fid, repo, authentik);
    if HasLink(rows, fid) && rows[fid].link.value in users {
      var groups := users[rows[fid].link.value];
      forall scope
        ensures scope in ScopesTo(groups, |groups|) <==> exists g | g in groups :: scope in GroupScopes(g)
      {
        ScopesUnion(groups, |groups|, scope);
      }
    }
  }

  /** The row has the id of a user. */
  predicate HasLink(rows: Rows, fid: string) {
    fid in rows && rows[fid].link.Some? && rows[fid].link.value != ""
  }

  // ----- Administrators' actions on rows and groups -----

  const MANAGED_GROUPS := ["edin-copilot", "edin-copilot-trusted"]

  /** Which calls of an action fail, without effect. */
  datatype Faults = Faults(readFails: bool, authentikDown: bool, addFails: bool, removeFails: set<string>,
                           linkFails: bool, approveFails: bool)

  /** The rows and groups after an action, the HTTP status, and whether the action
      went on to revoke the commander's sessions. */
  datatype Change = Change(rows: Rows, users: Directory, status: int, revokes: bool)

  function WithApproval(rows: Rows, fid: string, approved: bool): Rows
    requires fid in rows
  {
    rows[fid := rows[fid].(approved := approved)]
  }

  function WithLink(rows: Rows, fid: string, link: Option<Uuid>): Rows
    requires fid in rows
  {
    rows[fid := rows[fid].(link := link)]
  }

  predicate TakenByOther(rows: Rows, fid: string, link: Uuid) {
    exists other | other in rows :: other != fid && rows[other].link == Some(link)
  }

  function GrantChange(rows: Rows, users: Directory, fid: string, group: string, f: Faults): Change {
    var refuse := (status: int) => Change(rows, users, status, false);
    if group !in MANAGED_GROUPS then refuse(400)
    else if f.readFails then refuse(500)
    else if fid !in rows then refuse(404)
    else if !Linked(rows[fid]) then refuse(409)
    else if f.authentikDown then refuse(503)
    else if rows[fid].link.value !in users then refuse(409)
    else if f.addFails then refuse(500)
    else
      var link := rows[fid].link.value;
      var joined := users[link := if group in users[link] then users[link] else users[link] + [group]];
      if f.approveFails then Change(rows, joined, 500, false)
      else Change(WithApproval(rows, fid, true), joined, 200, false)
  }

  /** The groups without the first n managed ones, those whose removal fails excepted. */
  function Stripped(groups: seq<string>, n: nat, fails: set<string>): seq<string>
    requires n <= |MANAGED_GROUPS|
  {
    if n == 0 then groups else
    var rest := Stripped(groups, n - 1, fails);
    if MANAGED_GROUPS[n - 1] in fails then rest else Without(rest, MANAGED_GROUPS[n - 1])
  }

  function Without(groups: seq<string>, group: string): seq<string> {
    if groups == [] then []
    else if groups[0] == group then Without(groups[1..], group)
    else [groups[0]] + Without(groups[1..], group)
  }

  function RevokeChange(rows: Rows, users: Directory, fid: string, f: Faults): Change {
    if f.readFails then Change(rows, users, 500, false)
    else if fid !in rows then Change(rows, users, 404, false)
    else if f.approveFails then Change(rows, users, 500, false)
    else
      var row := rows[fid];
      var stripped :=
        if Linked(row) && !f.authentikDown && row.link.value in users
        then users[row.link.value := Stripped(users[row.link.value], |MANAGED_GROUPS|, f.removeFails)] else users;
      Change(WithApproval(rows, fid, false), stripped, 200, true)
  }

  function LinkChange(rows: Rows, users: Directory, fid: string, link: Uuid, f: Faults): Change {
    var refuse := (status: int) => Change(rows, users, status, false);
    if link == NIL_UUID then refuse(400)
    else if f.authentikDown then refuse(503)
    else if link !in users then refuse(400)
    else if f.linkFails then refuse(500)
    else if fid !in rows then refuse(404)
    else if TakenByOther(rows, fid, link) then refuse(409)
    else Change(WithLink(rows, fid, Some(link)), users, 200, true)
  }

  function UnlinkChange(rows: Rows, users: Directory, fid: string, f: Faults): Change {
    if f.linkFails then Change(rows, users, 500, false)
    else if fid !in rows then Change(rows, users, 404, false)
    else
      var unlinked := WithLink(rows, fid, None);
      if f.approveFails then Change(unlinked, users, 500, false)
      else Change(WithApproval(unlinked, fid, false), users, 200, true)
  }

  /** Approve and Deny */
  function ApprovalChange(rows: Rows, users: Directory, fid: string, approved: bool, f: Faults): Change {
    if f.approveFails then Change(rows, users, 500, false)
    else if fid !in rows then Change(rows, users, 404, false)
    else Change(WithApproval(rows, fid, approved), users, 200, !approved)
  }

  // ----- What an action does, by its guards -----

  /** One row's link and approval are as given; every other row is as it was. */
  predicate OnlyRow(a: Rows, b: Rows, fid: string, link: Option<Uuid>, approved: bool) {
    && b - {fid} == a - {fid} && fid in a && fid in b && b[fid].link == link && b[fid].approved == approved
  }

  lemma RowsBut<V>(m: map<string, V>, key: string, v: V)
    ensures m[key := v] - {key} == m - {key}
  {
  }

  /** A grant succeeds exactly for a managed group and a commander whose user is found,
      when no call fails; then the user is in the group and the commander approved. A
      failing approval leaves the group; any other refusal changes nothing. */
  lemma GrantExactly(rows: Rows, users: Directory, fid: string, group: string, f: Faults)
    ensures var c := GrantChange(rows, users, fid, group, f);
            var managed := group == "edin-copilot" || group == "edin-copilot-trusted";
            var asked := managed && !f.readFails;
            var found := HasLink(rows, fid) && !f.authentikDown && rows[fid].link.value in users;
            var joins := asked && found && !f.addFails;
            && (c.status == 200 <==> joins && !f.approveFails)
            && (c.status == 400 <==> !managed)
            && (c.status == 404 <==> asked && fid !in rows)
            && (c.status == 409 <==> asked && fid in rows && !found && !(HasLink(rows, fid) && f.authentikDown))
            && (c.status == 503 <==> asked && HasLink(rows, fid) && f.authentikDown)
            && (c.status == 500 <==> managed && (f.readFails || (found && f.addFails) || (joins && f.approveFails)))
            && c.status in {200, 400, 404, 409, 500, 503} && !c.revokes
            && (!joins ==> c.users == users)
            && (joins ==> JoinsGroup(users, c.users, rows[fid].link.value, group))
            && (if c.status == 200 then OnlyRow(rows, c.rows, fid, rows[fid].link, true) else c.rows == rows)
  {
    if HasLink(rows, fid) && rows[fid].link.value in users {
      var link, c := rows[fid].link.value, GrantChange(rows, users, fid, group, f);
      RowsBut(rows, fid, Row(rows[fid].link, true));
      RowsBut(users, link, users[link] + [group]);
      RowsBut(users, link, users[link]);
    }
  }

  /** The user is in the group, once, and nothing else has changed. */
  predicate JoinsGroup(a: Directory, b: Directory, link: Uuid, group: string) {
    && link in a && link in b && b - {link} == a - {link}
    && group in b[link] && (if group in a[link] then b[link] == a[link] else b[link] == a[link] + [group])
  }

  lemma {:induction false} WithoutMembers(groups: seq<string>, group: string, g: string)
    ensures g in Without(groups, group) <==> g in groups && g != group
  {
    if groups != [] {
      WithoutMembers(groups[1..], group, g);
      assert groups == [groups[0]] + groups[1..];
    }
  }

  lemma {:induction false} StrippedMembers(groups: seq<string>, n: nat, fails: set<string>, g: string)
    requires n <= |MANAGED_GROUPS|
    ensures g in Stripped(groups, n, fails) <==> g in groups && !(g in MANAGED_GROUPS[..n] && g !in fails)
  {
    if n > 0 {
      StrippedMembers(groups, n - 1, fails, g);
      WithoutMembers(Stripped(groups, n - 1, fails), MANAGED_GROUPS[n - 1], g);
      assert MANAGED_GROUPS[..n] == MANAGED_GROUPS[..n - 1] + [MANAGED_GROUPS[n - 1]];
    }
  }

  /** A revocation succeeds exactly for a row that is there when it can be read and
      written; then the approval is gone and, where the user is found, so are the managed
      groups whose removal does not fail. A refusal changes nothing. */
  lemma RevokeExactly(rows: Rows, users: Directory, fid: string, f: Faults)
    ensures var c := RevokeChange(rows, users, fid, f);
            var found := HasLink(rows, fid) && !f.authentikDown && rows[fid].link.value in users;
            && (c.status == 200 <==> !f.readFails && fid in rows && !f.approveFails)
            && (c.status == 404 <==> !f.readFails && fid !in rows)
            && (c.status == 500 <==> f.readFails || (fid in rows && f.approveFails))
            && (c.revokes <==> c.status == 200)
            && (c.status != 200 ==> c.rows == rows && c.users == users)
            && (c.status == 200 ==> OnlyRow(rows, c.rows, fid, rows[fid].link, false))
            && (c.status == 200 && !found ==> c.users == users)
            && (c.status == 200 && found ==>
                  var link := rows[fid].link.value;
                  && link in c.users && c.users - {link} == users - {link}
                  && forall g ::
                       g in c.users[link]
                       <==> g in users[link]
                            && !((g == "edin-copilot" || g == "edin-copilot-trusted") && g !in f.removeFails))
  {
    if fid in rows {
      RowsBut(rows, fid, Row(rows[fid].link, false));
    }
    if HasLink(rows, fid) && rows[fid].link.value in users {
      var link := rows[fid].link.value;
      var rest := Stripped(users[link], |MANAGED_GROUPS|, f.removeFails);
      RowsBut(users, link, rest);
      forall g
        ensures g in rest
           <==> g in users[link]
                && !((g == "edin-copilot" || g == "edin-copilot-trusted") && g !in f.removeFails)
      {
        StrippedMembers(users[link], |MANAGED_GROUPS|, f.removeFails, g);
        assert MANAGED_GROUPS[..|MANAGED_GROUPS|] == MANAGED_GROUPS;
      }
    }
  }

  /** A link succeeds exactly for a user that is found and that no other commander has,
      when the row is there and no call fails. A refusal changes nothing. */
  lemma LinkExactly(rows: Rows, users: Directory, fid: string, link: Uuid, f: Faults)
    ensures var c := LinkChange(rows, users, fid, link, f);
            var known := link != "" && !f.authentikDown && link in users;
            var taken := exists other | other in rows :: other != fid && rows[other].link == Some(link);
            && (c.status == 200 <==> known && !f.linkFails && fid in rows && !taken)
            && (c.status == 400 <==> link == "" || (!f.authentikDown && link !in users))
            && (c.status == 503 <==> link != "" && f.authentikDown)
            && (c.status == 500 <==> known && f.linkFails)
            && (c.status == 404 <==> known && !f.linkFails && fid !in rows)
            && (c.status == 409 <==> known && !f.linkFails && fid in rows && taken)
            && c.users == users && (c.revokes <==> c.status == 200)
            && (if c.status == 200 then OnlyRow(rows, c.rows, fid, Some(link), rows[fid].approved)
                else c.rows == rows)
  {
    if fid in rows {
      RowsBut(rows, fid, Row(Some(link), rows[fid].approved));
    }
  }

  /** An unlinking succeeds exactly when the row is there and both writes succeed. When the
      second fails, the link is gone, the approval is not, and no session is revoked. */
  lemma UnlinkExactly(rows: Rows, users: Directory, fid: string, f: Faults)
    ensures var c := UnlinkChange(rows, users, fid, f);
            && (c.status == 200 <==> !f.linkFails && fid in rows && !f.approveFails)
            && (c.status == 404 <==> !f.linkFails && fid !in rows)
            && (c.status == 500 <==> f.linkFails || (fid in rows && f.approveFails))
            && c.users == users && (c.revokes <==> c.status == 200)
            && (if f.linkFails || fid !in rows then c.rows == rows
                else OnlyRow(rows, c.rows, fid, None, f.approveFails && rows[fid].approved))
  {
    if fid in rows {
      RowsBut(rows, fid, Row(None, rows[fid].approved));
      RowsBut(WithLink(rows, fid, None), fid, Row(None, false));
    }
  }

  /** An approval or a denial succeeds exactly when the row is there and can be written;
      only a denial revokes sessions. */
  lemma ApprovalExactly(rows: Rows, users: Directory, fid: string, approved: bool, f: Faults)
    ensures var c := ApprovalChange(rows, users, fid, approved, f);
            && (c.status == 200 <==> fid in rows && !f.approveFails)
            && (c.status == 404 <==> fid !in rows && !f.approveFails)
            && (c.status == 500 <==> f.approveFails)
            && c.users == users && (c.revokes <==> c.status == 200 && !approved)
            && (if c.status == 200 then OnlyRow(rows, c.rows, fid, rows[fid].link, approved) else c.rows == rows)
  {
    if fid in rows {
      RowsBut(rows, fid, Row(rows[fid].link, approved));
    }
  }

  // ----- What an action means for the next login -----

  /** A grant that succeeds lets the commander in, with at least the group's scopes. */
  lemma GrantAdmits(rows: Rows, users: Directory, fid: string, group: string, f: Faults)
    requires GrantChange(rows, users, fid, group, f).status == 200
    ensures var c := GrantChange(rows, users, fid, group, f);
            var decision := Decide(c.rows, c.users, fid, Up, Up);
            decision.Allowed? && GroupScopes(group) <= decision.scopes
  {
    var c := GrantChange(rows, users, fid, group, f);
    var groups := c.users[rows[fid].link.value];
    assert group in groups;
    var i :| 0 <= i < |groups| && groups[i] == group;
    forall scope | scope in GroupScopes(group)
      ensures scope in ScopesTo(groups, |groups|)
    {
      assert scope in GroupScopes(groups[i]);
      ScopesUnion(groups, |groups|, scope);
    }
    assert "galaxy_read" in GroupScopes(group);
  }

  /** A revocation that succeeds shuts the commander out and takes away exactly the
      managed groups whose removal does not fail. */
  lemma RevokeShutsOut(rows: Rows, users: Directory, fid: string, f: Faults, g: string)
    requires RevokeChange(rows, users, fid, f).status == 200
    ensures var c := RevokeChange(rows, users, fid, f);
            && Decide(c.rows, c.users, fid, Up, Up) == Denied("awaiting_approval")
            && (Linked(rows[fid]) && !f.authentikDown && rows[fid].link.value in users ==>
                  var link := rows[fid].link.value;
                  g in c.users[link] <==> g in users[link] && !(g in MANAGED_GROUPS && g !in f.removeFails))
  {
    if Linked(rows[fid]) && rows[fid].link.value in users {
      StrippedMembers(users[rows[fid].link.value], |MANAGED_GROUPS|, f.removeFails, g);
      assert MANAGED_GROUPS[..|MANAGED_GROUPS|] == MANAGED_GROUPS;
    }
  }

  /** A denial keeps the groups, so that an approval afterwards brings back the same
      decision; an unlinking does not. */
  lemma DenyIsUndone(rows: Rows, users: Directory, fid: string, f: Faults, repo: Service, authentik: Service)
    requires fid in rows && rows[fid].approved && !f.approveFails && !f.linkFails && repo.Up?
    ensures var denied := ApprovalChange(rows, users, fid, false, f);
            var again := ApprovalChange(denied.rows, denied.users, fid, true, f);
            && Decide(denied.rows, denied.users, fid, repo, authentik) == Denied("awaiting_approval")
            && Decide(again.rows, again.users, fid, repo, authentik) == Decide(rows, users, fid, repo, authentik)
    ensures var unlinked := UnlinkChange(rows, users, fid, f);
            var again := ApprovalChange(unlinked.rows, unlinked.users, fid, true, f);
            Decide(again.rows, again.users, fid, repo, authentik) == Denied("awaiting_approval")
  {
    var denied := ApprovalChange(rows, users, fid, false, f);
    var again := ApprovalChange(denied.rows, denied.users, fid, true, f);
    assert again.rows == rows;
  }

  /** Uniqueness of links, as the index on the column has it. */
  predicate LinksUnique(rows: Rows) {
    forall a, b | a in rows && b in rows && a != b && rows[a].link.Some? :: rows[a].link != rows[b].link
  }

  /** Linking keeps links unique and is refused exactly when somebody else has the user. */
  lemma LinkKeepsUnique(rows: Rows, users: Directory, fid: string, link: Uuid, f: Faults)
    requires LinksUnique(rows)
    ensures LinksUnique(LinkChange(rows, users, fid, link, f).rows)
    ensures LinkChange(rows, users, fid, link, f).status == 409 ==> TakenByOther(rows, fid, link)
    ensures LinkChange(rows, users, fid, link, f).status == 200 ==> !TakenByOther(rows, fid, link)
  {
    var after := LinkChange(rows, users, fid, link, f).rows;
    forall a, b | a in after && b in after && a != b && after[a].link.Some?
      ensures after[a].link != after[b].link
    {
      assert a in rows && b in rows;
    }
  }

  datatype Failed = NotFound | AlreadyLinked | Other

  class AdminApi {
    var rows: Rows
    var users: Directory
    const redis: SessionRedis

    constructor (rows: Rows, users: Directory, redis: SessionRedis)
      ensures this.rows == rows && this.users == users && this.redis == redis
    {
      this.rows, this.users, this.redis := rows, users, redis;
    }

    /** Rows, groups and status as the change says, sessions revoked where it says so. */
    twostate predicate Carries(c: Change, status: int, fid: string, jtis: seq<string>, now: int, calls: Calls)
      requires |jtis| == |calls.faults|
      reads this, redis
    {
      && (rows, users, status) == (c.rows, c.users, c.status)
      && (redis.tracking, redis.revoked) ==
           if c.revokes then AllRevoked(old(redis.tracking), old(redis.revoked), fid, jtis, now, calls)
           else (old(redis.tracking), old(redis.revoked))
    }

    method SetApproved(fid: string, approved: bool, fails: bool) returns (err: Option<Failed>)
      modifies `rows
      ensures fails ==> err == Some(Other)
      ensures !fails && fid !in old(rows) ==> err == Some(NotFound)
      ensures err.Some? ==> rows == old(rows)
      ensures !fails && fid in old(rows) ==> err == None && rows == WithApproval(old(rows), fid, approved)
    {
      if fails {
        return Some(Other);
      }
      if fid !in rows {
        return Some(NotFound);
      }
      rows := rows[fid := rows[fid].(approved := approved)];
      err := None;
    }

    method SetAuthentikLink(fid: string, link: Option<Uuid>, fails: bool) returns (err: Option<Failed>)
      modifies `rows
      ensures err == if fails then Some(Other)
                     else if fid !in old(rows) then Some(NotFound)
                     else if link.Some? && TakenByOther(old(rows), fid, link.value) then Some(AlreadyLinked)
                     else None
      ensures err.Some? ==> rows == old(rows)
      ensures err.None? ==> rows == WithLink(old(rows), fid, link)
    {
      if fails {
        return Some(Other);
      }
      if fid !in rows {
        return Some(NotFound);
      }
      if link.Some? && TakenByOther(rows, fid, link.value) {
        return Some(AlreadyLinked);
      }
      rows := rows[fid := rows[fid].(link := link)];
      err := None;
    }

    method Grant(fid: string, group: string, f: Faults) returns (status: int)
      modifies this
      ensures Carries(GrantChange(old(rows), old(users), fid, group, f), status, fid, [], 0, Calls(true, [], true))
    {
      if group !in MANAGED_GROUPS {
        return 400;
      }
      if f.readFails {
        return 500;
      }
      if fid !in rows {
        return 404;
      }
      if !Linked(rows[fid]) {
        return 409;
      }
      if f.authentikDown {
        return 503;
      }
      var link := rows[fid].link.value;
      if link !in users {
        return 409;
      }
      if f.addFails {
        return 500;
      }
      if group !in users[link] {
        users := users[link := users[link] + [group]];
      }
      assert users == old(users)[link := users[link]];
      var err := SetApproved(fid, true, f.approveFails);
      status := if err.Some? then 500 else 200;
    }

    method Revoke(fid: string, f: Faults, jtis: seq<string>, now: int, calls: Calls) returns (status: int)
      requires |jtis| == |calls.faults|
      modifies this, redis
      ensures Carries(RevokeChange(old(rows), old(users), fid, f), status, fid, jtis, now, calls)
    {
      if f.readFails {
        return 500;
      }
      if fid !in rows {
        return 404;
      }
      var row := rows[fid];
      var err := SetApproved(fid, false, f.approveFails);
      if err.Some? {
        return 500;
      }
      if Linked(row) && !f.authentikDown && row.link.value in users {
        var groups := users[row.link.value];
        for i := 0 to |MANAGED_GROUPS|
          invariant groups == Stripped(old(users)[row.link.value], i, f.removeFails)
        {
          if MANAGED_GROUPS[i] in f.removeFails {
            continue;
          }
          groups := Without(groups, MANAGED_GROUPS[i]);
        }
        users := users[row.link.value := groups];
      }
      var partial := redis.RevokeAllSessions(fid, jtis, now, calls);
      status := 200;
    }

    method Link(fid: string, link: Uuid, f: Faults, jtis: seq<string>, now: int, calls: Calls) returns (status: int)
      requires |jtis| == |calls.faults|
      modifies this, redis
      ensures Carries(LinkChange(old(rows), old(users), fid, link, f), status, fid, jtis, now, calls)
    {
      if link == NIL_UUID {
        return 400;
      }
      if f.authentikDown {
        return 503;
      }
      if link !in users {
        return 400;
      }
      var err := SetAuthentikLink(fid, Some(link), f.linkFails);
      if err.Some? {
        return match err.value case NotFound => 404 case AlreadyLinked => 409 case Other => 500;
      }
      var partial := redis.RevokeAllSessions(fid, jtis, now, calls);
      status := 200;
    }

    method Unlink(fid: string, f: Faults, jtis: seq<string>, now: int, calls: Calls) returns (status: int)
      requires |jtis| == |calls.faults|
      modifies this, redis
      ensures Carries(UnlinkChange(old(rows), old(users), fid, f), status, fid, jtis, now, calls)
    {
      var err := SetAuthentikLink(fid, None, f.linkFails);
      if err.Some? {
        return if err.value.NotFound? then 404 else 500;
      }
      err := SetApproved(fid, false, f.approveFails);
      if err.Some? {
        return 500;
      }
      var partial := redis.RevokeAllSessions(fid, jtis, now, calls);
      status := 200;
    }

    method Approve(fid: string, f: Faults) returns (status: int)
      modifies this
      ensures Carries(ApprovalChange(old(rows), old(users), fid, true, f), status, fid, [], 0, Calls(true, [], true))
    {
      var err := SetApproved(fid, true, f.approveFails);
      status := if err.None? then 200 else if err.value.NotFound? then 404 else 500;
    }

    method Deny(fid: string, f: Faults, jtis: seq<string>, now: int, calls: Calls) returns (status: int)
      requires |jtis| == |calls.faults|
      modifies this, redis
      ensures Carries(ApprovalChange(old(rows), old(users), fid, false, f), status, fid, jtis, now, calls)
    {
      var err := SetApproved(fid, false, f.approveFails);
      if err.Some? {
        return if err.value.NotFound? then 404 else 500;
      }
      var partial := redis.RevokeAllSessions(fid, jtis, now, calls);
      status := 200;
    }
  }
}
