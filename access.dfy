/**
 * The three access questions the backend asks of a project before acting: may this user read
 * it, write to it, or administer it. The REST routes and the socket service ask the same
 * questions with the same queries.
 */
module Access {
  import opened Store

  /** The user has a collaboration row on the project with a role in `roles`. */
  predicate HasRole(p: Project, userId: UserId, roles: set<Role>) {
    exists i | 0 <= i < |p.collaborations| ::
      p.collaborations[i].userId == userId && p.collaborations[i].role in roles
  }

  /** Read access: the project exists and the user owns it or collaborates on it in any role. */
  predicate CanRead(projects: map<ProjectId, Project>, projectId: ProjectId, userId: UserId) {
    projectId in projects &&
    (projects[projectId].ownerId == userId || HasRole(projects[projectId], userId, {Owner, Editor, Viewer}))
  }

  /** Write access: the owner, or a collaborator whose role is OWNER or EDITOR. */
  predicate CanWrite(projects: map<ProjectId, Project>, projectId: ProjectId, userId: UserId) {
    projectId in projects &&
    (projects[projectId].ownerId == userId || HasRole(projects[projectId], userId, {Owner, Editor}))
  }

  /** Administration: only the project's owner (a collaboration role of OWNER does not count). */
  predicate IsOwner(projects: map<ProjectId, Project>, projectId: ProjectId, userId: UserId) {
    projectId in projects && projects[projectId].ownerId == userId
  }

  /** The levels nest: owning implies writing, writing implies reading. */
  lemma AccessHierarchy(projects: map<ProjectId, Project>, projectId: ProjectId, userId: UserId)
    ensures IsOwner(projects, projectId, userId) ==> CanWrite(projects, projectId, userId)
    ensures CanWrite(projects, projectId, userId) ==> CanRead(projects, projectId, userId)
  {
    if CanWrite(projects, projectId, userId) && projects[projectId].ownerId != userId {
      var p := projects[projectId];
      var i :| 0 <= i < |p.collaborations| && p.collaborations[i].userId == userId && p.collaborations[i].role in {Owner, Editor};
      assert p.collaborations[i].role in {Owner, Editor, Viewer};
    }
  }

  /**
   * A user who is not the owner and whose every collaboration row on the project says VIEWER
   * may read the project (when there is such a row) but never write it.
   */
  lemma ViewerReadsOnly(projects: map<ProjectId, Project>, projectId: ProjectId, userId: UserId)
    requires projectId in projects && projects[projectId].ownerId != userId
    requires forall c | c in projects[projectId].collaborations && c.userId == userId :: c.role == Viewer
    ensures !CanWrite(projects, projectId, userId)
    ensures CanRead(projects, projectId, userId) <==> Collaboration(userId, Viewer) in projects[projectId].collaborations
  {
    var cs := projects[projectId].collaborations;
    forall i | 0 <= i < |cs| && cs[i].userId == userId
      ensures cs[i] == Collaboration(userId, Viewer)
    {
      assert cs[i] in cs;
    }
    if Collaboration(userId, Viewer) in cs {
      var i :| 0 <= i < |cs| && cs[i] == Collaboration(userId, Viewer);
      assert HasRole(projects[projectId], userId, {Owner, Editor, Viewer});
    }
  }

  /** A stranger, neither owner nor collaborator, gets no access at all. */
  lemma StrangerHasNoAccess(projects: map<ProjectId, Project>, projectId: ProjectId, userId: UserId)
    requires projectId in projects && projects[projectId].ownerId != userId
    requires forall c | c in projects[projectId].collaborations :: c.userId != userId
    ensures !CanRead(projects, projectId, userId) && !CanWrite(projects, projectId, userId)
  {
    var cs := projects[projectId].collaborations;
    forall i | 0 <= i < |cs|
      ensures cs[i].userId != userId
    {
      assert cs[i] in cs;
    }
  }

  /** A missing project grants nothing, whoever asks. */
  lemma MissingProjectDenied(projects: map<ProjectId, Project>, projectId: ProjectId, userId: UserId)
    requires projectId !in projects
    ensures !CanRead(projects, projectId, userId) && !CanWrite(projects, projectId, userId)
    ensures !IsOwner(projects, projectId, userId)
  {
  }

  /** Access is decided by the project's own row only: other projects do not affect it. */
  lemma AccessIsLocal(projects: map<ProjectId, Project>, projectId: ProjectId, other: ProjectId, p: Project, userId: UserId)
    requires other != projectId
    ensures CanRead(projects[other := p], projectId, userId) == CanRead(projects, projectId, userId)
    ensures CanWrite(projects[other := p], projectId, userId) == CanWrite(projects, projectId, userId)
  {
  }
}
