/** Projects and their in-memory store. */
module Projects {
  import opened Wrappers
  import opened Sequences
  import opened Text

  datatype ProjectStatus = Creating | Failed | Active | Suspended | Deleting | Deleted

  datatype Project = Project(
    id: string,
    owner: string,
    status: ProjectStatus,
    repositoryOwner: string,
    repositoryName: string,
    serviceType: string,
    replicaCount: int,
    resourceProfile: string,
    dedicatedLoadBalancer: bool,
    suspendedAt: Option<int>,
    deletionDueAt: Option<int>)

  predicate Keyed(projects: map<string, Project>) {
    forall id :: id in projects ==> projects[id].id == id
  }

  /** A live project of this repository, case ignored. */
  predicate Serves(p: Project, repoOwner: string, repoName: string) {
    && p.status != Deleted && p.status != Deleting
    && EqualFold(Trim(p.repositoryOwner), repoOwner) && EqualFold(Trim(p.repositoryName), repoName)
  }

  /** A slice that List may return: every stored project once, in any order. */
  ghost predicate IsListing(listing: seq<Project>, projects: map<string, Project>) {
    && NoDuplicates(listing)
    && forall p: Project :: p in listing <==> p.id in projects && projects[p.id] == p
  }

  /** An update leaves a stored setting alone when the new record leaves it blank. */
  function Merged(update: Project, existing: Project): Project {
    update.(
      repositoryOwner := if update.repositoryOwner == "" then existing.repositoryOwner else update.repositoryOwner,
      repositoryName := if update.repositoryName == "" then existing.repositoryName else update.repositoryName,
      serviceType := if update.serviceType == "" then existing.serviceType else update.serviceType,
      replicaCount := if update.replicaCount == 0 then existing.replicaCount else update.replicaCount,
      resourceProfile := if update.resourceProfile == "" then existing.resourceProfile else update.resourceProfile)
  }

  class ProjectStore {
    var projects: map<string, Project>

    constructor ()
      ensures projects == map[]
    {
      projects := map[];
    }

    method Create(project: Project) returns (ok: bool)
      requires Keyed(projects)
      modifies this
      ensures Keyed(projects)
      ensures ok == (project.id !in old(projects))
      ensures projects == if ok then old(projects)[project.id := project] else old(projects)
    {
      ok := project.id !in projects;
      if ok {
        projects := projects[project.id := project];
      }
    }

    method GetByID(id: string) returns (project: Option<Project>)
      ensures project == if id in projects then Some(projects[id]) else None
    {
      project := if id in projects then Some(projects[id]) else None;
    }

    /** The map is walked in an order nobody controls. */
    method List() returns (listing: seq<Project>)
      requires Keyed(projects)
      ensures IsListing(listing, projects)
    {
      listing := [];
      var left := projects.Keys;
      while left != {}
        invariant left <= projects.Keys
        invariant NoDuplicates(listing)
        invariant forall p: Project :: p in listing <==> p.id in projects && p.id !in left && projects[p.id] == p
      {
        var id :| id in left;
        assert projects[id] !in listing;
        listing := listing + [projects[id]];
        left := left - {id};
      }
    }

    method Update(project: Project) returns (ok: bool)
      requires Keyed(projects)
      modifies this
      ensures Keyed(projects)
      ensures ok == (project.id in old(projects))
      ensures projects == if ok then old(projects)[project.id := Merged(project, old(projects)[project.id])]
                          else old(projects)
      ensures ok ==>
        var was, r := old(projects)[project.id], projects[project.id];
        && r.status == project.status && r.suspendedAt == project.suspendedAt && r.deletionDueAt == project.deletionDueAt
        && r.id == project.id && r.owner == project.owner && r.dedicatedLoadBalancer == project.dedicatedLoadBalancer
        && r.repositoryOwner == (if project.repositoryOwner != "" then project.repositoryOwner else was.repositoryOwner)
        && r.repositoryName == (if project.repositoryName != "" then project.repositoryName else was.repositoryName)
        && r.serviceType == (if project.serviceType != "" then project.serviceType else was.serviceType)
        && r.replicaCount == (if project.replicaCount != 0 then project.replicaCount else was.replicaCount)
        && r.resourceProfile == (if project.resourceProfile != "" then project.resourceProfile else was.resourceProfile)
    {
      ok := project.id in projects;
      if ok {
        projects := projects[project.id := Merged(project, projects[project.id])];
      }
    }
  }
}
