/**
 * The records the application persists: projects, chat messages, saved checklists and user
 * profiles, with the partial records their updates take. Generated components and test
 * suites are the `ApiTypes` records.
 */
module Records {
  import opened Wrappers
  import opened ApiTypes
  import opened Workflow

  datatype Status = Draft | Generated | Deployed

  datatype Project = Project(
    id: string,
    title: string,
    description: string,
    techStack: seq<string>,
    createdAt: string,
    updatedAt: string,
    status: Status)

  /** `Omit<Project, 'id' | 'createdAt' | 'updatedAt'>`. */
  datatype ProjectDraft = ProjectDraft(title: string, description: string, techStack: seq<string>, status: Status)

  /** `Partial<Project>`; an `updatedAt` it carries is always overwritten, so it is not a field here. */
  datatype ProjectPatch = ProjectPatch(
    id: Option<string>,
    title: Option<string>,
    description: Option<string>,
    techStack: Option<seq<string>>,
    createdAt: Option<string>,
    status: Option<Status>)

  /** `{ ...project, ...updates, updatedAt: now }`. */
  function PatchProject(p: Project, u: ProjectPatch, now: string): (r: Project)
    ensures r.updatedAt == now
    ensures r.title == u.title.GetOr(p.title) && r.description == u.description.GetOr(p.description)
    ensures r.id == u.id.GetOr(p.id) && r.createdAt == u.createdAt.GetOr(p.createdAt)
    ensures r.techStack == u.techStack.GetOr(p.techStack) && r.status == u.status.GetOr(p.status)
  {
    Project(u.id.GetOr(p.id), u.title.GetOr(p.title), u.description.GetOr(p.description),
      u.techStack.GetOr(p.techStack), u.createdAt.GetOr(p.createdAt), now, u.status.GetOr(p.status))
  }

  datatype ChatMessage = ChatMessage(id: string, role: Role, content: string, timestamp: string)

  /** A saved checklist (`ChecklistItem`): the generated checklist and the workflow it came from. */
  datatype ChecklistRecord = ChecklistRecord(
    id: string,
    title: string,
    description: string,
    checklist: ProjectChecklist,
    workflowData: WorkflowData,
    createdAt: string,
    updatedAt: string)

  datatype ChecklistDraft = ChecklistDraft(title: string, description: string, checklist: ProjectChecklist, workflowData: WorkflowData)

  datatype ChecklistPatch = ChecklistPatch(
    id: Option<string>,
    title: Option<string>,
    description: Option<string>,
    checklist: Option<ProjectChecklist>,
    workflowData: Option<WorkflowData>,
    createdAt: Option<string>)

  /** The partial record that carries every field of c. */
  function WholeChecklist(c: ChecklistRecord): ChecklistPatch {
    ChecklistPatch(Some(c.id), Some(c.title), Some(c.description), Some(c.checklist), Some(c.workflowData), Some(c.createdAt))
  }

  /** `{ ...checklist, ...updates, updatedAt: now }`. */
  function PatchChecklist(c: ChecklistRecord, u: ChecklistPatch, now: string): (r: ChecklistRecord)
    ensures r.updatedAt == now
    ensures r.id == u.id.GetOr(c.id) && r.title == u.title.GetOr(c.title) && r.description == u.description.GetOr(c.description)
    ensures r.checklist == u.checklist.GetOr(c.checklist) && r.workflowData == u.workflowData.GetOr(c.workflowData)
    ensures r.createdAt == u.createdAt.GetOr(c.createdAt)
  {
    ChecklistRecord(u.id.GetOr(c.id), u.title.GetOr(c.title), u.description.GetOr(c.description),
      u.checklist.GetOr(c.checklist), u.workflowData.GetOr(c.workflowData), u.createdAt.GetOr(c.createdAt), now)
  }

  /** Patching with a whole record gives that record, with only the update time refreshed. */
  lemma PatchWithWholeChecklist(c: ChecklistRecord, d: ChecklistRecord, now: string)
    ensures PatchChecklist(c, WholeChecklist(d), now) == d.(updatedAt := now)
  {
  }

  /** The profile fields kept per user; an absent avatar is the empty string. */
  datatype UserProfile = UserProfile(displayName: string, email: string, bio: string, phoneNumber: string, avatar: string)

  function ProjectId(p: Project): string { p.id }
  function ChecklistId(c: ChecklistRecord): string { c.id }
  function ComponentId(c: GeneratedComponent): string { c.id }
  function TestsId(t: GeneratedTests): string { t.id }
}
