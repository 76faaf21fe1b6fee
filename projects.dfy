/**
 * The project endpoints (backend/controllers/projectController.js) over an
 * in-memory collection of project documents keyed by their id: create,
 * owner-or-admin update and delete, and the per-user listing, newest first.
 */
module Projects {
  import opened Wrappers
  import opened ProjectSchema

  /** The authenticated caller (`req.user`). */
  datatype Requester = Requester(id: string, role: string)

  /** An error response: HTTP status and message. */
  datatype Failure = Failure(status: int, message: string)

  const NotFound := Failure(404, "Project not found")
  const NotAuthorized := Failure(401, "Not authorized")
  const ServerError := Failure(500, "Server Error")
  const Removed := "Project removed"

  /** A document together with its id, as a query returns it. */
  datatype Stored = Stored(id: string, doc: Project)

  /**
   * The check before an update or delete: an admin may change every
   * project, any other caller exactly the projects they own.
   */
  predicate MayChange(p: Project, who: Requester)
    ensures who.role == "admin" ==> MayChange(p, who)
    ensures who.role != "admin" ==> (MayChange(p, who) <==> p.userId == who.id)
  {
    p.userId == who.id || who.role == "admin"
  }

  /**
   * The in-place update of an authorized request: a truthy title replaces
   * the title, `itemsUsed` is replaced wholesale by the cast body items
   * (an absent array reads back as the empty one; `newIds` supplies the
   * generated `_id`s), and `updatedAt` moves to `now`.
   */
  function Updated(p: Project, body: ProjectInput, now: int, newIds: nat -> string): (q: Project)
    ensures q.userId == p.userId && q.roomImageURL == p.roomImageURL && q.createdAt == p.createdAt
    ensures Truthy(body.title) ==> q.title == body.title.value
    ensures !Truthy(body.title) ==> q.title == p.title
    ensures q.itemsUsed == CastItems(body.itemsUsed.GetOr([]), newIds)
    ensures q.updatedAt == now
  {
    p.(title := if Truthy(body.title) then body.title.value else p.title,
       itemsUsed := CastItems(body.itemsUsed.GetOr([]), newIds),
       updatedAt := now)
  }

  /** An update never breaks the schema's required fields. */
  lemma UpdateKeepsValid(p: Project, body: ProjectInput, now: int, newIds: nat -> string)
    requires ValidProject(p)
    ensures ValidProject(Updated(p, body, now, newIds))
  {
  }

  /** Whatever `roomImageURL` the body carries, the update result is the same. */
  lemma UpdateIgnoresRoomImage(p: Project, body: ProjectInput, url: Option<string>, now: int, newIds: nat -> string)
    ensures Updated(p, body.(roomImageURL := url), now, newIds) == Updated(p, body, now, newIds)
    ensures Updated(p, body, now, newIds).roomImageURL == p.roomImageURL
  {
  }

  /** Sending the same update twice gives the same document as sending it once. */
  lemma UpdateIdempotent(p: Project, body: ProjectInput, now: int, newIds: nat -> string)
    ensures Updated(Updated(p, body, now, newIds), body, now, newIds) == Updated(p, body, now, newIds)
  {
  }

  /** Adjacent entries are in non-increasing `createdAt` order. */
  ghost predicate NewestFirst(s: seq<Stored>) {
    forall i :: 0 < i < |s| ==> s[i - 1].doc.createdAt >= s[i].doc.createdAt
  }

  /** Adjacent order gives the order of every pair. */
  lemma {:induction false} NewestFirstPairwise(s: seq<Stored>)
    requires NewestFirst(s)
    ensures forall i, j :: 0 <= i < j < |s| ==> s[i].doc.createdAt >= s[j].doc.createdAt
  {
    if |s| > 1 {
      NewestFirstPairwise(s[1..]);
      forall i, j | 0 <= i < j < |s|
        ensures s[i].doc.createdAt >= s[j].doc.createdAt
      {
        if i > 0 {
          assert s[i] == s[1..][i - 1] && s[j] == s[1..][j - 1];
        } else if j > 1 {
          assert s[1] == s[1..][0] && s[j] == s[1..][j - 1];
        }
      }
    }
  }

  /** Placing one document into a newest-first list. */
  function InsertNewest(e: Stored, s: seq<Stored>): (r: seq<Stored>)
    ensures multiset(r) == multiset(s) + multiset{e}
    ensures |r| == |s| + 1
    ensures r[0] == e || (|s| > 0 && r[0] == s[0])
  {
    if s == [] || e.doc.createdAt >= s[0].doc.createdAt then [e] + s
    else
      assert s == [s[0]] + s[1..];
      [s[0]] + InsertNewest(e, s[1..])
  }

  lemma {:induction false} InsertKeepsNewestFirst(e: Stored, s: seq<Stored>)
    requires NewestFirst(s)
    ensures NewestFirst(InsertNewest(e, s))
  {
    if s == [] || e.doc.createdAt >= s[0].doc.createdAt {
    } else {
      var rest := InsertNewest(e, s[1..]);
      InsertKeepsNewestFirst(e, s[1..]);
      var r := [s[0]] + rest;
      assert InsertNewest(e, s) == r;
      forall i | 0 < i < |r|
        ensures r[i - 1].doc.createdAt >= r[i].doc.createdAt
      {
        if i == 1 {
          assert r[1] == rest[0];
          assert rest[0] == e || rest[0] == s[1];
        } else {
          assert r[i - 1] == rest[i - 2] && r[i] == rest[i - 1];
        }
      }
    }
  }

  /** Inserting a project not yet listed keeps the list newest first and without repeats. */
  lemma InsertFacts(e: Stored, s: seq<Stored>)
    requires NewestFirst(s) && e !in s
    requires forall x :: multiset(s)[x] <= 1
    ensures NewestFirst(InsertNewest(e, s))
    ensures forall x :: x in InsertNewest(e, s) <==> x in s || x == e
    ensures forall x :: multiset(InsertNewest(e, s))[x] <= 1
  {
    InsertKeepsNewestFirst(e, s);
    var r := InsertNewest(e, s);
    assert forall x :: x in r <==> x in multiset(r);
  }

  /** The projects a `deleteMany` filter on `field` equal to `value` leaves in place. */
  function Remaining(projects: map<string, Project>, field: string, value: string): (r: map<string, Project>)
    ensures forall k :: k in r ==> k in projects && r[k] == projects[k]
    ensures forall k :: k in r ==> !FieldEquals(projects[k], field, value)
    ensures forall k :: k in projects && !FieldEquals(projects[k], field, value) ==> k in r
  {
    map k | k in projects && !FieldEquals(projects[k], field, value) :: projects[k]
  }

  /**
   * A filter's condition on one document. The schema declares only these
   * paths for strings; a filter on any other path finds no document that
   * carries it.
   */
  predicate FieldEquals(p: Project, field: string, value: string)
    ensures FieldEquals(p, field, value) ==> field in {"userId", "title", "roomImageURL"}
    ensures field == "userId" ==> (FieldEquals(p, field, value) <==> p.userId == value)
  {
    if field == "userId" then p.userId == value
    else if field == "title" then p.title == value
    else if field == "roomImageURL" then p.roomImageURL == value
    else false
  }

  /** The filter on `user`, a path no project has, deletes nothing. */
  lemma UserFilterDeletesNothing(projects: map<string, Project>, value: string)
    ensures Remaining(projects, "user", value) == projects
  {
  }

  /** The filter on `userId` deletes exactly the projects owned by that user. */
  lemma OwnerFilterDeletesOwned(projects: map<string, Project>, value: string)
    ensures forall k :: k in Remaining(projects, "userId", value) <==> k in projects && projects[k].userId != value
    ensures forall k :: k in Remaining(projects, "userId", value) ==> Remaining(projects, "userId", value)[k] == projects[k]
  {
  }

  class ProjectStore {
    var projects: map<string, Project>

    ghost predicate Valid()
      reads this
    {
      forall k :: k in projects ==> ValidProject(projects[k])
    }

    constructor()
      ensures Valid() && projects == map[]
    {
      projects := map[];
    }

    /**
     * `saveProject`: the caller becomes the owner; the body's title, room
     * image and items make the document; a validation failure is a 500 and
     * stores nothing. `newId` is the fresh document id and `newIds` the
     * fresh `_id`s of the items.
     */
    method SaveProject(who: Requester, body: ProjectInput, now: int, newId: string, newIds: nat -> string)
      returns (r: Result<Stored, Failure>)
      requires Valid()
      requires newId !in projects
      modifies this
      ensures Valid()
      ensures CreateProject(who.id, body, now, newIds).Err? ==> r == Err(ServerError) && projects == old(projects)
      ensures CreateProject(who.id, body, now, newIds).Ok? ==>
                r == Ok(Stored(newId, CreateProject(who.id, body, now, newIds).value))
                && projects == old(projects)[newId := CreateProject(who.id, body, now, newIds).value]
      ensures r.Ok? ==> r.value.doc.userId == who.id && Some(r.value.doc.title) == body.title
                        && Some(r.value.doc.roomImageURL) == body.roomImageURL
    {
      var created := CreateProject(who.id, body, now, newIds);
      if created.Err? {
        return Err(ServerError);
      }
      projects := projects[newId := created.value];
      r := Ok(Stored(newId, created.value));
    }

    /**
     * `updateProject`: 404 for an unknown id and 401 for a caller who may
     * not change it, both leaving the store as it was; otherwise only that
     * document is replaced by its update.
     */
    method UpdateProject(who: Requester, id: string, body: ProjectInput, now: int, newIds: nat -> string)
      returns (r: Result<Project, Failure>)
      requires Valid()
      modifies this
      ensures Valid()
      ensures id !in old(projects) ==> r == Err(NotFound) && projects == old(projects)
      ensures id in old(projects) && !MayChange(old(projects)[id], who) ==>
                r == Err(NotAuthorized) && projects == old(projects)
      ensures id in old(projects) && MayChange(old(projects)[id], who) ==>
                r == Ok(Updated(old(projects)[id], body, now, newIds))
                && projects == old(projects)[id := Updated(old(projects)[id], body, now, newIds)]
    {
      if id !in projects {
        return Err(NotFound);
      }
      var p := projects[id];
      if !MayChange(p, who) {
        return Err(NotAuthorized);
      }
      UpdateKeepsValid(p, body, now, newIds);
      var q := Updated(p, body, now, newIds);
      projects := projects[id := q];
      r := Ok(q);
    }

    /**
     * `getUserProjects`: every project whose owner is `userId`, each once
     * and with its current contents, newest `createdAt` first. The store is
     * not changed.
     */
    method GetUserProjects(userId: string) returns (r: seq<Stored>)
      ensures NewestFirst(r)
      ensures forall s :: s in r ==> s.id in projects && projects[s.id] == s.doc && s.doc.userId == userId
      ensures forall k :: k in projects && projects[k].userId == userId ==> Stored(k, projects[k]) in r
      ensures forall s :: multiset(r)[s] <= 1
    {
      r := [];
      var pending := projects.Keys;
      while pending != {}
        invariant pending <= projects.Keys
        invariant NewestFirst(r)
        invariant forall s :: s in r ==> s.id in projects && s.id !in pending && projects[s.id] == s.doc && s.doc.userId == userId
        invariant forall k :: k in projects && k !in pending && projects[k].userId == userId ==> Stored(k, projects[k]) in r
        invariant forall s :: multiset(r)[s] <= 1
        decreases pending
      {
        var k :| k in pending;
        if projects[k].userId == userId {
          var e := Stored(k, projects[k]);
          assert e !in r;
          InsertFacts(e, r);
          r := InsertNewest(e, r);
        }
        pending := pending - {k};
      }
    }

    /**
     * `deleteProject`: 404 for an unknown id, 401 for a caller who may not
     * delete it; otherwise exactly that project is removed.
     */
    method DeleteProject(who: Requester, id: string) returns (r: Result<string, Failure>)
      requires Valid()
      modifies this
      ensures Valid()
      ensures id !in old(projects) ==> r == Err(NotFound) && projects == old(projects)
      ensures id in old(projects) && !MayChange(old(projects)[id], who) ==>
                r == Err(NotAuthorized) && projects == old(projects)
      ensures id in old(projects) && MayChange(old(projects)[id], who) ==>
                r == Ok(Removed) && projects == old(projects) - {id}
    {
      if id !in projects {
        return Err(NotFound);
      }
      if !MayChange(projects[id], who) {
        return Err(NotAuthorized);
      }
      projects := projects - {id};
      r := Ok(Removed);
    }

    /** `deleteMany` with a one-path equality filter. */
    method DeleteMany(field: string, value: string)
      requires Valid()
      modifies this
      ensures Valid()
      ensures projects == Remaining(old(projects), field, value)
      ensures forall k :: k in projects <==> k in old(projects) && !FieldEquals(old(projects)[k], field, value)
      ensures forall k :: k in projects ==> projects[k] == old(projects)[k]
    {
      projects := Remaining(projects, field, value);
    }
  }
}
