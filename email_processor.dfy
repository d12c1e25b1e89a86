// The email-processor lambda: the filters a stored SES notification passes
// through, the four-step choice of the project an e-mail belongs to, the
// metadata patch applied to that project, and the per-batch counting.
//
// The handler is modelled against the multi-tenant store with a fixed tenant
// `org`; the calls as the handler spells them are modelled separately at the
// end of this module. S3, MIME parsing and the language model are inputs.

module EmailProcessor {
  import opened Wrappers
  import opened Text
  import opened Items
  import opened Keys
  import opened Queries
  import opened Store
  import opened EmailParser
  import opened AiClient

  const PROJECT_NAME := "project_name"
  const PROJECT_ADDRESS := "project_address"
  const PEOPLE_MENTIONED := "people_mentioned"
  const CLIENT_NAME := "client_name"
  const ACTIVE := "active"
  const UNNAMED_PROJECT := "Unnamed Project"

  /** The default `max_length` of `sanitize_input`. */
  const MAX_BODY_LENGTH := 100000

  /** The environment settings the handler reads. */
  datatype Config = Config(maxAttachmentSizeMb: int, enableEmailAllowlist: bool, allowedSenderDomains: string)

  // ---------------------------------------------------------------------------
  // Step 3: the sender's single active project
  // ---------------------------------------------------------------------------

  predicate IsActive(item: Item) {
    Get(item, STATUS) == Str(ACTIVE)
  }

  /** `[p for p in projects if p.get('status') == 'active']`. */
  function ActiveOnly(items: seq<Item>): (r: seq<Item>)
    ensures |r| <= |items|
    ensures forall x :: x in r <==> x in items && IsActive(x)
  {
    if |items| == 0 then []
    else (if IsActive(items[0]) then [items[0]] else []) + ActiveOnly(items[1..])
  }

  /** Filtering two listings one after the other keeps their order: the kept items of the first come first. */
  lemma {:induction false} ActiveOnlyConcat(a: seq<Item>, b: seq<Item>)
    ensures ActiveOnly(a + b) == ActiveOnly(a) + ActiveOnly(b)
  {
    if |a| == 0 {
      assert a + b == b;
    } else {
      assert (a + b)[1..] == a[1..] + b;
      ActiveOnlyConcat(a[1..], b);
    }
  }

  /** One project is kept iff it is active; with `ActiveOnlyConcat` this pins the filter down exactly. */
  lemma ActiveOnlySingle(x: Item)
    ensures ActiveOnly([x]) == if IsActive(x) then [x] else []
  {
    assert [x][1..] == [];
  }

  /** The active projects of a client, across every tenant. */
  ghost function ActiveClientKeys(projects: map<ProjectKey, Item>, clientEmail: string): set<ProjectKey> {
    set k | k in ClientProjectKeys(projects, clientEmail) && IsActive(projects[k])
  }

  /** The element of a one-element set. */
  ghost function TheOnly<K>(s: set<K>): (k: K)
    requires |s| == 1
    ensures s == {k}
  {
    var k :| k in s;
    SingletonOf(s, k);
    k
  }

  lemma SingletonOf<K>(s: set<K>, k: K)
    requires |s| == 1 && k in s
    ensures s == {k}
  {
    var rest := s - {k};
    assert s == rest + {k};
    assert |rest| == 0;
  }

  /** The keys of a listing whose items are active, in listing order. */
  ghost function ActiveKeys(projects: map<ProjectKey, Item>, keys: seq<ProjectKey>): (r: seq<ProjectKey>)
    requires forall i :: 0 <= i < |keys| ==> keys[i] in projects
    ensures forall i :: 0 <= i < |r| ==> r[i] in projects
  {
    if |keys| == 0 then []
    else (if IsActive(projects[keys[0]]) then [keys[0]] else []) + ActiveKeys(projects, keys[1..])
  }

  predicate NoRepeats<K(==)>(s: seq<K>) {
    forall i, j :: 0 <= i < j < |s| ==> s[i] != s[j]
  }

  /** `ActiveKeys` keeps exactly the active keys of the listing. */
  lemma {:induction false} ActiveKeysMembers(projects: map<ProjectKey, Item>, keys: seq<ProjectKey>)
    requires forall i :: 0 <= i < |keys| ==> keys[i] in projects
    ensures forall k :: k in ActiveKeys(projects, keys) <==> k in keys && IsActive(projects[k])
  {
    if |keys| > 0 {
      ActiveKeysMembers(projects, keys[1..]);
      assert forall k :: k in keys <==> k == keys[0] || k in keys[1..];
    }
  }

  /** `ActiveKeys` keeps a listing free of repeats. */
  lemma {:induction false} ActiveKeysNoRepeats(projects: map<ProjectKey, Item>, keys: seq<ProjectKey>)
    requires forall i :: 0 <= i < |keys| ==> keys[i] in projects
    requires NoRepeats(keys)
    ensures NoRepeats(ActiveKeys(projects, keys))
  {
    if |keys| > 0 {
      var tail := keys[1..];
      assert NoRepeats(tail) by {
        forall i, j | 0 <= i < j < |tail| ensures tail[i] != tail[j] {
          assert tail[i] == keys[i + 1] && tail[j] == keys[j + 1];
        }
      }
      ActiveKeysNoRepeats(projects, tail);
      ActiveKeysMembers(projects, tail);
      assert keys[0] !in tail;
      var head := if IsActive(projects[keys[0]]) then [keys[0]] else [];
      var rest := ActiveKeys(projects, tail);
      var r := head + rest;
      forall i, j | 0 <= i < j < |r| ensures r[i] != r[j] {
        if i >= |head| {
          assert r[i] == rest[i - |head|] && r[j] == rest[j - |head|];
        } else {
          assert r[i] == keys[0];
          assert r[j] == rest[j - |head|];
          assert r[j] in tail;
        }
      }
    }
  }

  lemma ItemsAtConcat(table: map<ProjectKey, Item>, a: seq<ProjectKey>, b: seq<ProjectKey>)
    requires forall i :: 0 <= i < |a| ==> a[i] in table
    requires forall i :: 0 <= i < |b| ==> b[i] in table
    ensures forall i :: 0 <= i < |a + b| ==> (a + b)[i] in table
    ensures ItemsAt(table, a + b) == ItemsAt(table, a) + ItemsAt(table, b)
  {
    var l, r := ItemsAt(table, a + b), ItemsAt(table, a) + ItemsAt(table, b);
    assert |l| == |r|;
    forall i | 0 <= i < |l| ensures l[i] == r[i] {
      if i >= |a| {
        assert (a + b)[i] == b[i - |a|];
      }
    }
  }

  lemma {:induction false} ActiveItems(projects: map<ProjectKey, Item>, keys: seq<ProjectKey>)
    requires forall i :: 0 <= i < |keys| ==> keys[i] in projects
    ensures ActiveOnly(ItemsAt(projects, keys)) == ItemsAt(projects, ActiveKeys(projects, keys))
  {
    if |keys| > 0 {
      var items := ItemsAt(projects, keys);
      var tail := ItemsAt(projects, keys[1..]);
      assert items[1..] == tail;
      ActiveItems(projects, keys[1..]);
      var head := if IsActive(projects[keys[0]]) then [keys[0]] else [];
      var rest := ActiveKeys(projects, keys[1..]);
      assert ActiveKeys(projects, keys) == head + rest;
      assert ActiveOnly(items) == ActiveOnly(items[..1]) + ActiveOnly(tail) by {
        assert ActiveOnly(items) == (if IsActive(items[0]) then [items[0]] else []) + ActiveOnly(items[1..]);
      }
      assert ActiveOnly(items[..1]) == ItemsAt(projects, head) by {
        assert items[..1] == [items[0]];
        assert ActiveOnly(items[..1]) == (if IsActive(items[0]) then [items[0]] else []) + ActiveOnly([]);
      }
      ItemsAtConcat(projects, head, rest);
    }
  }

  /**
   * Filtering the client listing leaves one item per active project of the
   * client; when there is exactly one, it is that project's item.
   */
  lemma {:induction false} ActiveListing(projects: map<ProjectKey, Item>, clientEmail: string, keys: seq<ProjectKey>)
    requires ListsEachOnce(ClientProjectKeys(projects, clientEmail), keys)
    ensures forall i :: 0 <= i < |keys| ==> keys[i] in projects
    ensures var active := ActiveOnly(ItemsAt(projects, keys));
      |active| == |ActiveClientKeys(projects, clientEmail)|
      && (|active| == 1 ==> active[0] == projects[TheOnly(ActiveClientKeys(projects, clientEmail))])
  {
    ActiveItems(projects, keys);
    ActiveKeysNoRepeats(projects, keys);
    var ak := ActiveKeys(projects, keys);
    var target := ActiveClientKeys(projects, clientEmail);
    DistinctSeqSize(ak);
    ActiveKeysListTarget(projects, clientEmail, keys);
    if |ak| == 1 {
      assert ak[0] in target;
      SingletonOf(target, ak[0]);
    }
  }

  /** The active keys of a listing of the client's projects are exactly the client's active projects. */
  lemma ActiveKeysListTarget(projects: map<ProjectKey, Item>, clientEmail: string, keys: seq<ProjectKey>)
    requires ListsEachOnce(ClientProjectKeys(projects, clientEmail), keys)
    ensures forall i :: 0 <= i < |keys| ==> keys[i] in projects
    ensures (set i | 0 <= i < |ActiveKeys(projects, keys)| :: ActiveKeys(projects, keys)[i]) == ActiveClientKeys(projects, clientEmail)
  {
    ActiveKeysMembers(projects, keys);
    var ak := ActiveKeys(projects, keys);
    var target := ActiveClientKeys(projects, clientEmail);
    var listed := set i | 0 <= i < |ak| :: ak[i];
    forall k ensures k in listed <==> k in target {
      if k in target {
        assert k in keys;
        var i :| 0 <= i < |ak| && ak[i] == k;
      }
    }
  }

  // ---------------------------------------------------------------------------
  // determine_project_id
  // ---------------------------------------------------------------------------

  /**
   * How a project id was found. The extracted and the stored id are kept as
   * the values they are; only the store's key strings spell them out.
   */
  datatype Resolution =
    | ByHint(hint: string)
    | ByAiId(projectId: Value)
    | ByClient(projectId: Value)
    | CreateNew(data: Item)
    | ResolveFailed(error: Error)

  /** The fields of the project the fourth step creates. */
  function NewProjectData(m: Metadata, extracted: Item): Item {
    map[CLIENT_EMAIL := Str(m.senderEmail),
        CLIENT_NAME := Str(m.from),
        PROJECT_NAME := GetOr(extracted, PROJECT_NAME, Str(UNNAMED_PROJECT)),
        PROJECT_ADDRESS := Get(extracted, PROJECT_ADDRESS),
        STATUS := Str(ACTIVE)]
  }

  /**
   * The four steps, first success wins: the recipient hint if that project
   * exists in the tenant, the extracted id if that project exists, the single
   * active project of the sender in any tenant, otherwise a new project.
   */
  ghost function Resolve(projects: map<ProjectKey, Item>, org: string, m: Metadata, extracted: Item): Resolution {
    var hint := m.projectIdHint;
    var ai := Get(extracted, PROJECT_ID);
    if hint.Some? && hint.value != "" && ProjectExists(projects, org, hint.value) then ByHint(hint.value)
    else if Truthy(ai) && IdText(ai).Some? && ProjectExists(projects, org, IdText(ai).value) then ByAiId(ai)
    else SenderStep(projects, m, extracted)
  }

  /**
   * Steps three and four: the sender's single active project, otherwise a new
   * one. The client query refuses an empty sender address, which is what a
   * message without a usable From header gives.
   */
  ghost function SenderStep(projects: map<ProjectKey, Item>, m: Metadata, extracted: Item): Resolution {
    var active := ActiveClientKeys(projects, m.senderEmail);
    if m.senderEmail == "" then ResolveFailed(EMPTY_KEY)
    else if |active| == 1 then
      var item := projects[TheOnly(active)];
      if PROJECT_ID !in item then ResolveFailed(KeyError(PROJECT_ID))
      else ByClient(item[PROJECT_ID])
    else CreateNew(NewProjectData(m, extracted))
  }

  /** The project id a successful resolution yields: the one found, or the fresh one. */
  function ResolvedId(res: Resolution, hex: string): Value
    requires !res.ResolveFailed? && IsHexString(hex, 8)
  {
    match res
    case ByHint(id) => Str(id)
    case ByAiId(id) => id
    case ByClient(id) => id
    case CreateNew(_) => Str(NewProjectId(hex))
  }

  /** The projects table after resolving: the new project added under its key, or as it was. */
  function ProjectsAfter(res: Resolution, before: map<ProjectKey, Item>, org: string, hex: string, now: nat): map<ProjectKey, Item>
    requires IsHexString(hex, 8)
  {
    match res
    case CreateNew(data) =>
      var pid := NewProjectId(hex);
      before[ProjectKey(org, ProjectSortKey(pid, now)) := Merge(ProjectDefaults(org, pid, now), data)]
    case _ => before
  }

  /** What `determine_project_id` returns and leaves in the projects table, for each way of resolving. */
  ghost predicate ResolvedAs(res: Resolution, before: map<ProjectKey, Item>, after: map<ProjectKey, Item>,
                             org: string, hex: string, now: nat, r: Result<Value, Error>)
    requires IsHexString(hex, 8)
  {
    match res
    case ResolveFailed(e) => r == Err(e) && after == before
    case _ => r == Ok(ResolvedId(res, hex)) && after == ProjectsAfter(res, before, org, hex, now)
  }

  /** Only a new project changes the table, and it is then one entry larger. */
  lemma ProjectsAfterAddsAtMostOne(res: Resolution, before: map<ProjectKey, Item>, org: string, hex: string, now: nat)
    requires IsHexString(hex, 8)
    ensures !res.CreateNew? ==> ProjectsAfter(res, before, org, hex, now) == before
    ensures res.CreateNew? ==>
      var k := ProjectKey(org, ProjectSortKey(NewProjectId(hex), now));
      ProjectsAfter(res, before, org, hex, now).Keys == before.Keys + {k}
      && forall k2 :: k2 in before && k2 != k ==> ProjectsAfter(res, before, org, hex, now)[k2] == before[k2]
  {
  }

  method DetermineProjectId(db: DbClient, org: string, m: Metadata, extracted: Item, hex: string, now: nat)
    returns (r: Result<Value, Error>)
    requires db.Valid() && org != "" && IsHexString(hex, 8)
    modifies db
    ensures db.Valid()
    ensures ResolvedAs(Resolve(old(db.projects), org, m, extracted), old(db.projects), db.projects, org, hex, now, r)
    ensures db.organizations == old(db.organizations) && db.events == old(db.events)
    ensures db.users == old(db.users) && db.usage == old(db.usage)
  {
    var hint := m.projectIdHint;
    if hint.Some? && hint.value != "" {
      var project := db.GetProject(org, hint.value);
      if project.value.Some? {
        return Ok(Str(hint.value));
      }
    }
    var ai := Get(extracted, PROJECT_ID);
    if Truthy(ai) && IdText(ai).Some? {
      var project := db.GetProject(org, IdText(ai).value);
      if project.value.Some? {
        return Ok(ai);
      }
    }
    r := ResolveBySender(db, org, m, extracted, hex, now);
  }

  /** Steps three and four of `determine_project_id`, once the hint and the extracted id have failed. */
  method ResolveBySender(db: DbClient, org: string, m: Metadata, extracted: Item, hex: string, now: nat)
    returns (r: Result<Value, Error>)
    requires db.Valid() && org != "" && IsHexString(hex, 8)
    modifies db
    ensures db.Valid()
    ensures ResolvedAs(SenderStep(old(db.projects), m, extracted), old(db.projects), db.projects, org, hex, now, r)
    ensures db.organizations == old(db.organizations) && db.events == old(db.events)
    ensures db.users == old(db.users) && db.usage == old(db.usage)
  {
    var listing, keys := db.GetProjectsByClient(m.senderEmail);
    if listing.Err? {
      return Err(listing.error);
    }
    var projects := listing.value;
    ActiveListing(db.projects, m.senderEmail, keys);
    var active := ActiveOnly(projects);
    if |active| == 1 {
      var item := active[0];
      if PROJECT_ID !in item {
        return Err(KeyError(PROJECT_ID));
      }
      return Ok(item[PROJECT_ID]);
    }
    var data := NewProjectData(m, extracted);
    NewProjectKey(org, hex, now, m, extracted);
    var created := db.CreateProject(org, data, hex, now);
    r := Ok(Str(created.value));
  }

  /**
   * The new project's fields never override its key, so it lands under
   * `project_id#created_at` in the tenant; with a sender address, its client
   * and status are non-empty strings, so the store's indexes accept it.
   */
  lemma NewProjectKey(org: string, hex: string, now: nat, m: Metadata, extracted: Item)
    requires org != "" && IsHexString(hex, 8)
    ensures var pid := NewProjectId(hex);
      var item := Merge(ProjectDefaults(org, pid, now), NewProjectData(m, extracted));
      && ProjectKeyOf(item) == Some(ProjectKey(org, ProjectSortKey(pid, now)))
      && (ProjectIndexed(item) <==> m.senderEmail != "")
  {
    var data := NewProjectData(m, extracted);
    assert ORGANIZATION_ID !in data && PROJECT_ID_CREATED_AT !in data;
    var item := Merge(ProjectDefaults(org, NewProjectId(hex), now), data);
    assert item[CLIENT_EMAIL] == Str(m.senderEmail) && item[STATUS] == Str(ACTIVE);
  }

  /**
   * A message whose sender address is empty, as one without a From header
   * gives, cannot be filed by sender: the client query refuses it.
   */
  lemma EmptySenderFails(projects: map<ProjectKey, Item>, org: string, m: Metadata, extracted: Item)
    requires m.projectIdHint.None? && PROJECT_ID !in extracted
    requires m.senderEmail == ""
    ensures Resolve(projects, org, m, extracted) == ResolveFailed(EMPTY_KEY)
  {
  }

  /** A hint naming a missing project falls through to the extracted id, not straight to creation. */
  lemma MissingHintFallsThrough(projects: map<ProjectKey, Item>, org: string, m: Metadata, extracted: Item, aiId: string)
    requires m.projectIdHint.Some? && !ProjectExists(projects, org, m.projectIdHint.value)
    requires Get(extracted, PROJECT_ID) == Str(aiId) && aiId != "" && ProjectExists(projects, org, aiId)
    ensures Resolve(projects, org, m, extracted) == ByAiId(Str(aiId))
  {
  }

  /**
   * A numeric id from the model finds the project whose id is that number
   * written out, and the number itself, not its text, is the result.
   */
  lemma NumericAiIdUsed(projects: map<ProjectKey, Item>, org: string, m: Metadata, extracted: Item, n: int, hex: string)
    requires m.projectIdHint.None? && IsHexString(hex, 8)
    requires Get(extracted, PROJECT_ID) == Num(n) && n != 0 && ProjectExists(projects, org, IntText(n))
    ensures Resolve(projects, org, m, extracted) == ByAiId(Num(n))
    ensures ResolvedId(Resolve(projects, org, m, extracted), hex) == Num(n)
  {
  }

  /**
   * The sender's single active project yields its stored `project_id` as it
   * is stored, whatever its type; only a missing one raises.
   */
  lemma StoredIdReturnedAsStored(projects: map<ProjectKey, Item>, m: Metadata, extracted: Item, k: ProjectKey, hex: string)
    requires m.senderEmail != "" && ActiveClientKeys(projects, m.senderEmail) == {k} && IsHexString(hex, 8)
    ensures PROJECT_ID in projects[k] ==> ResolvedId(SenderStep(projects, m, extracted), hex) == projects[k][PROJECT_ID]
    ensures PROJECT_ID !in projects[k] <==> SenderStep(projects, m, extracted) == ResolveFailed(KeyError(PROJECT_ID))
  {
    assert |ActiveClientKeys(projects, m.senderEmail)| == 1;
    assert TheOnly({k}) == k;
  }

  /** A list or map from the model names no project: resolution goes on to the sender's projects. */
  lemma UnrenderedAiIdFallsThrough(projects: map<ProjectKey, Item>, org: string, m: Metadata, extracted: Item)
    requires m.projectIdHint.None?
    requires Get(extracted, PROJECT_ID).List? || Get(extracted, PROJECT_ID).Record?
    requires m.senderEmail != "" && |ActiveClientKeys(projects, m.senderEmail)| != 1
    ensures Resolve(projects, org, m, extracted) == CreateNew(NewProjectData(m, extracted))
  {
  }

  /** Two or more active projects for the sender lead to a new project, as do none. */
  lemma AmbiguousClientCreates(projects: map<ProjectKey, Item>, org: string, m: Metadata, extracted: Item)
    requires m.projectIdHint.None? && PROJECT_ID !in extracted && m.senderEmail != ""
    requires |ActiveClientKeys(projects, m.senderEmail)| != 1
    ensures Resolve(projects, org, m, extracted) == CreateNew(NewProjectData(m, extracted))
  {
  }

  /**
   * The created project belongs to the sender, is named after the From header,
   * is active, and is called "Unnamed Project" only when no name was extracted
   * at all (an extracted empty name is kept).
   */
  lemma NewProjectFields(m: Metadata, extracted: Item)
    ensures var d := NewProjectData(m, extracted);
      && d[CLIENT_EMAIL] == Str(m.senderEmail) && d[CLIENT_NAME] == Str(m.from) && d[STATUS] == Str(ACTIVE)
      && (PROJECT_NAME in extracted ==> d[PROJECT_NAME] == extracted[PROJECT_NAME])
      && (PROJECT_NAME !in extracted ==> d[PROJECT_NAME] == Str(UNNAMED_PROJECT))
      && d[PROJECT_ADDRESS] == (if PROJECT_ADDRESS in extracted then extracted[PROJECT_ADDRESS] else Null)
      && ORGANIZATION_ID !in d && PROJECT_ID_CREATED_AT !in d
  {
  }

  // ---------------------------------------------------------------------------
  // update_project_metadata
  // ---------------------------------------------------------------------------

  /** A stored name that may be replaced: missing, empty or the placeholder. */
  predicate Unnamed(project: Item) {
    !Truthy(Get(project, PROJECT_NAME)) || Get(project, PROJECT_NAME) == Str(UNNAMED_PROJECT)
  }

  /** The fields `update_project_metadata` sends, given the project it finds (if any). */
  function MetadataPatch(existing: Option<Item>, extracted: Item): (patch: Item)
    ensures patch.Keys <= {PROJECT_NAME, PROJECT_ADDRESS, PEOPLE_MENTIONED}
    ensures PROJECT_NAME in patch <==>
      Truthy(Get(extracted, PROJECT_NAME)) && existing.Some? && Unnamed(existing.value)
    ensures PROJECT_ADDRESS in patch <==> Truthy(Get(extracted, PROJECT_ADDRESS))
    ensures PEOPLE_MENTIONED in patch <==> Truthy(Get(extracted, PEOPLE_MENTIONED))
    ensures forall f :: f in patch ==> f in extracted && patch[f] == extracted[f]
  {
    var name: Item :=
      if Truthy(Get(extracted, PROJECT_NAME)) && existing.Some? && Unnamed(existing.value)
      then map[PROJECT_NAME := extracted[PROJECT_NAME]] else map[];
    var address: Item :=
      if Truthy(Get(extracted, PROJECT_ADDRESS)) then name[PROJECT_ADDRESS := extracted[PROJECT_ADDRESS]] else name;
    if Truthy(Get(extracted, PEOPLE_MENTIONED)) then address[PEOPLE_MENTIONED := extracted[PEOPLE_MENTIONED]]
    else address
  }

  /** The project `get_project` returns. */
  ghost function FoundProject(projects: map<ProjectKey, Item>, org: string, projectId: string): Option<Item> {
    if ProjectExists(projects, org, projectId)
    then Some(projects[FirstProjectKey(projects, org, projectId).value])
    else None
  }

  /** The error a result carries, if any. */
  function Failure<T>(r: Result<T, Error>): (e: Option<Error>)
    ensures e.None? <==> r.Ok?
    ensures r.Err? ==> e == Some(r.error)
  {
    if r.Err? then Some(r.error) else None
  }

  /**
   * How `update_project_metadata` leaves the projects table and whether it
   * raises (`failed`): no call for an empty patch; `ValueError` for a
   * non-empty patch on a project missing from the tenant; otherwise the patch
   * and `updated_at` are set on the project `get_project` finds.
   */
  ghost predicate MetadataPatched(before: map<ProjectKey, Item>, after: map<ProjectKey, Item>, org: string,
                                  projectId: string, extracted: Item, now: nat, failed: Option<Error>)
  {
    var patch := MetadataPatch(FoundProject(before, org, projectId), extracted);
    if patch == map[] then failed.None? && after == before
    else if !ProjectExists(before, org, projectId) then failed.Some? && failed.value.ValueError? && after == before
    else
      var k := FirstProjectKey(before, org, projectId).value;
      failed.None? && after == before[k := Merge(before[k], patch[UPDATED_AT := Num(now)])]
  }

  /**
   * Sends the patch through `update_project`, and makes no call when it is
   * empty. A non-empty patch for a project missing from the tenant raises
   * `ValueError` from `update_project`.
   */
  method UpdateProjectMetadata(db: DbClient, org: string, projectId: string, extracted: Item, now: nat)
    returns (r: Result<(), Error>)
    requires db.Valid() && org != ""
    modifies db
    ensures db.Valid()
    ensures MetadataPatched(old(db.projects), db.projects, org, projectId, extracted, now, Failure(r))
    ensures db.organizations == old(db.organizations) && db.events == old(db.events)
    ensures db.users == old(db.users) && db.usage == old(db.usage)
  {
    ghost var existing := FoundProject(db.projects, org, projectId);
    var updates: Item := map[];
    if Truthy(Get(extracted, PROJECT_NAME)) {
      var project := db.GetProject(org, projectId);
      assert project.value == existing;
      if project.value.Some? && Unnamed(project.value.value) {
        updates := updates[PROJECT_NAME := extracted[PROJECT_NAME]];
      }
    }
    if Truthy(Get(extracted, PROJECT_ADDRESS)) {
      updates := updates[PROJECT_ADDRESS := extracted[PROJECT_ADDRESS]];
    }
    if Truthy(Get(extracted, PEOPLE_MENTIONED)) {
      updates := updates[PEOPLE_MENTIONED := extracted[PEOPLE_MENTIONED]];
    }
    assert updates == MetadataPatch(existing, extracted);
    PatchUnkeyed(existing, extracted);
    if updates != map[] {
      var _, res := db.UpdateProject(org, projectId, updates, now);
      r := if res.Ok? then Ok(()) else res;
    } else {
      r := Ok(());
    }
  }

  /** The patch names no key attribute and no indexed one, so the store accepts it as it stands. */
  lemma PatchUnkeyed(existing: Option<Item>, extracted: Item)
    ensures var patch := MetadataPatch(existing, extracted);
      ORGANIZATION_ID !in patch && PROJECT_ID_CREATED_AT !in patch && CLIENT_EMAIL !in patch && STATUS !in patch
      && ProjectIndexed(patch)
  {
  }

  /** The stored name is replaced only when it is missing, empty or the placeholder. */
  lemma NamedProjectKeepsName(existing: Item, extracted: Item)
    requires Truthy(Get(existing, PROJECT_NAME)) && Get(existing, PROJECT_NAME) != Str(UNNAMED_PROJECT)
    ensures PROJECT_NAME !in MetadataPatch(Some(existing), extracted)
  {
  }

  /** Address and people are overwritten whole, not merged with what is stored. */
  lemma PatchOverwrites(existing: Option<Item>, extracted: Item)
    requires Truthy(Get(extracted, PROJECT_ADDRESS)) && Truthy(Get(extracted, PEOPLE_MENTIONED))
    ensures var patch := MetadataPatch(existing, extracted);
      patch[PROJECT_ADDRESS] == extracted[PROJECT_ADDRESS]
      && patch[PEOPLE_MENTIONED] == extracted[PEOPLE_MENTIONED]
  {
  }

  // ---------------------------------------------------------------------------
  // Attachments
  // ---------------------------------------------------------------------------

  /** An attachment of the parsed e-mail, with what S3 answers when it is stored (key or error). */
  datatype Attachment = Attachment(filename: string, contentType: string, size: int, stored: Result<string, string>)

  datatype StoredAttachment = StoredAttachment(filename: string, s3Key: string, contentType: string, size: int)

  /** An attachment that is kept: not over the size limit and stored without error. */
  predicate Eligible(a: Attachment, maxSize: int) {
    a.size <= maxSize && a.stored.Ok?
  }

  /** The stored record of a kept attachment. */
  function StoredOf(a: Attachment): StoredAttachment
    requires a.stored.Ok?
  {
    StoredAttachment(a.filename, a.stored.value, a.contentType, a.size)
  }

  /** The attachments that are kept, in order. */
  function KeptAttachments(attachments: seq<Attachment>, maxSize: int): (r: seq<StoredAttachment>)
    ensures |r| <= |attachments|
    ensures forall i :: 0 <= i < |r| ==> r[i].size <= maxSize
    ensures forall s :: s in r <==> exists a :: a in attachments && Eligible(a, maxSize) && s == StoredOf(a)
  {
    if |attachments| == 0 then []
    else
      var init := KeptAttachments(attachments[..|attachments| - 1], maxSize);
      var a := attachments[|attachments| - 1];
      assert forall b :: b in attachments <==> b in attachments[..|attachments| - 1] || b == a;
      if !Eligible(a, maxSize) then init
      else init + [StoredOf(a)]
  }

  /** Two runs of attachments are kept one after the other, in their order. */
  lemma {:induction false} KeptAttachmentsConcat(a: seq<Attachment>, b: seq<Attachment>, maxSize: int)
    ensures KeptAttachments(a + b, maxSize) == KeptAttachments(a, maxSize) + KeptAttachments(b, maxSize)
    decreases |b|
  {
    if |b| == 0 {
      assert a + b == a;
    } else {
      var n := |b| - 1;
      assert (a + b)[..|a + b| - 1] == a + b[..n];
      assert (a + b)[|a + b| - 1] == b[n];
      KeptAttachmentsConcat(a, b[..n], maxSize);
    }
  }

  /** One attachment is kept, as its stored record, exactly when it is eligible. */
  lemma KeptSingle(a: Attachment, maxSize: int)
    ensures KeptAttachments([a], maxSize) == if Eligible(a, maxSize) then [StoredOf(a)] else []
  {
    assert [a][..0] == [];
  }

  /** The attachment loop: oversized ones are skipped, a failed upload is logged and skipped. */
  method CollectAttachments(attachments: seq<Attachment>, maxSize: int) returns (keys: seq<StoredAttachment>)
    ensures keys == KeptAttachments(attachments, maxSize)
  {
    keys := [];
    for i := 0 to |attachments|
      invariant keys == KeptAttachments(attachments[..i], maxSize)
    {
      var a := attachments[i];
      assert attachments[..i + 1][..i] == attachments[..i];
      if a.size > maxSize {
        continue;
      }
      match a.stored {
        case Ok(key) =>
          keys := keys + [StoredAttachment(a.filename, key, a.contentType, a.size)];
        case Err(_) =>
      }
    }
    assert attachments[..|attachments|] == attachments;
  }

  function Describe(a: StoredAttachment): string {
    a.filename + " (" + a.contentType + ")"
  }

  /** `", ".join(...)` of the descriptions. */
  function JoinDescriptions(stored: seq<StoredAttachment>): string
    requires |stored| > 0
  {
    if |stored| == 1 then Describe(stored[0])
    else JoinDescriptions(stored[..|stored| - 1]) + ", " + Describe(stored[|stored| - 1])
  }

  /** No summary without attachments; otherwise their descriptions joined by commas. */
  function AttachmentsSummary(stored: seq<StoredAttachment>): (r: Option<string>)
    ensures r.None? <==> |stored| == 0
    ensures |stored| == 1 ==> r == Some(Describe(stored[0]))
  {
    if |stored| == 0 then None else Some(JoinDescriptions(stored))
  }

  /** One more stored attachment adds `, name (type)` to a summary. */
  lemma SummaryAppend(stored: seq<StoredAttachment>, a: StoredAttachment)
    requires |stored| > 0
    ensures AttachmentsSummary(stored + [a]) == Some(AttachmentsSummary(stored).value + ", " + Describe(a))
  {
    assert (stored + [a])[..|stored|] == stored;
  }

  // ---------------------------------------------------------------------------
  // process_email_record
  // ---------------------------------------------------------------------------

  /** The S3 location the SES notification names (absent fields are `Null`). */
  datatype Notification = Notification(bucketName: Value, objectKey: Value)

  /** The e-mail as the MIME parser delivers it. */
  datatype InboundEmail = InboundEmail(headers: Headers, body: string, attachments: seq<Attachment>)

  /** What the language model is given. */
  datatype AiRequest = AiRequest(sender: string, subject: string, body: string, attachmentsSummary: Option<string>)

  /**
   * Everything one record needs from outside: the notification decoded from
   * the SQS body and the SNS message inside it (or the error decoding raises:
   * a missing `body` or `Message`, or text that is not JSON), the e-mail S3
   * returns (or its error), the fresh hex digits for a project id, the fresh
   * event id and the clock.
   */
  datatype RecordInput = RecordInput(
    notification: Result<Notification, Error>,
    email: Result<InboundEmail, Error>,
    projectHex: string,
    eventId: string,
    now: nat)

  datatype RecordOutcome =
    | SkippedNoLocation
    | SkippedAutoReply
    | SkippedSender
    | Recorded(projectId: Value)

  /** The sender filter: open when the allowlist is off, otherwise `validate_sender`. */
  predicate PassesAllowlist(cfg: Config, senderEmail: string) {
    !cfg.enableEmailAllowlist || SenderAllowed(senderEmail, ParseAllowedDomains(cfg.allowedSenderDomains))
  }

  function MaxAttachmentBytes(cfg: Config): int {
    cfg.maxAttachmentSizeMb * 1024 * 1024
  }

  function AttachmentRecord(a: StoredAttachment): Value {
    Record(map["filename" := Str(a.filename), "s3_key" := Str(a.s3Key),
               "content_type" := Str(a.contentType), "size" := Num(a.size)])
  }

  function AttachmentRecords(stored: seq<StoredAttachment>): (r: seq<Value>)
    ensures |r| == |stored|
  {
    seq(|stored|, i requires 0 <= i < |stored| => AttachmentRecord(stored[i]))
  }

  /** The event written for an e-mail. */
  function EmailEventData(m: Metadata, objectKey: Value, stored: seq<StoredAttachment>, extracted: Item): Item {
    map["event_type" := Str("EMAIL_RECEIVED"),
        "source_email_id" := Str(m.messageId),
        "sender" := Str(m.senderEmail),
        "subject" := Str(m.subject),
        "raw_s3_key" := objectKey,
        "attachments" := List(AttachmentRecords(stored)),
        "ai_extracted_data" := Record(extracted)]
  }

  /**
   * How a record ends, whatever the store holds: a notification that cannot
   * be decoded raises; one without an S3 location is skipped; an e-mail S3
   * cannot deliver raises; an auto-reply, then a sender the allowlist refuses,
   * is skipped; anything else is recorded or fails further on.
   */
  predicate RecordVerdict(cfg: Config, input: RecordInput, r: Result<RecordOutcome, Error>) {
    match input.notification
    case Err(e) => r == Err(e)
    case Ok(n) =>
      if !Truthy(n.bucketName) || !Truthy(n.objectKey) then r == Ok(SkippedNoLocation)
      else
        match input.email
        case Err(e) => r == Err(e)
        case Ok(email) =>
          if AutoReply(email.headers) then r == Ok(SkippedAutoReply)
          else if !PassesAllowlist(cfg, ExtractMetadata(email.headers).senderEmail) then r == Ok(SkippedSender)
          else r.Err? || r.value.Recorded?
  }

  /** A record that gets through every filter to the recording step. */
  predicate PassesFilters(cfg: Config, input: RecordInput) {
    && input.notification.Ok?
    && Truthy(input.notification.value.bucketName) && Truthy(input.notification.value.objectKey)
    && input.email.Ok?
    && !AutoReply(input.email.value.headers)
    && PassesAllowlist(cfg, ExtractMetadata(input.email.value.headers).senderEmail)
  }

  /** The project id a recorded outcome names, or the error of a failed one. */
  function RecordedId(r: Result<RecordOutcome, Error>): Result<Value, Error>
    requires r.Err? || r.value.Recorded?
  {
    if r.Err? then Err(r.error) else Ok(r.value.projectId)
  }

  /**
   * One SQS record. The filters (no S3 location, auto-reply, sender not
   * allowed) return before anything is written; a record that gets through
   * is recorded as `RecordEmail` states, which writes exactly one event,
   * under its project and the current millisecond.
   */
  method ProcessEmailRecord(db: DbClient, cfg: Config, org: string, input: RecordInput,
                            extract: AiRequest -> Result<Item, Error>)
    returns (r: Result<RecordOutcome, Error>)
    requires db.Valid() && org != "" && IsHexString(input.projectHex, 8)
    modifies db
    ensures db.Valid()
    ensures db.organizations == old(db.organizations) && db.users == old(db.users) && db.usage == old(db.usage)
    ensures RecordVerdict(cfg, input, r)
    ensures !PassesFilters(cfg, input) ==> db.projects == old(db.projects) && db.events == old(db.events)
    ensures PassesFilters(cfg, input) ==>
      (r.Err? || r.value.Recorded?)
      && EmailRecorded(cfg, org, input, extract, old(db.projects), db.projects, old(db.events), db.events, RecordedId(r))
    ensures r.Ok? && r.value.Recorded? ==>
      IdText(r.value.projectId).Some? &&
      var k := EventKey(EventPartition(org, IdText(r.value.projectId).value), input.now);
      && db.events.Keys == old(db.events).Keys + {k}
      && (forall k2 :: k2 in old(db.events) && k2 != k ==> db.events[k2] == old(db.events)[k2])
  {
    if input.notification.Err? {
      return Err(input.notification.error);
    }
    var n := input.notification.value;
    if !Truthy(n.bucketName) || !Truthy(n.objectKey) {
      return Ok(SkippedNoLocation);
    }
    if input.email.Err? {
      return Err(input.email.error);
    }
    var email := input.email.value;
    var metadata := ExtractMetadata(email.headers);
    var autoReply := IsAutoReply(email.headers);
    if autoReply {
      return Ok(SkippedAutoReply);
    }
    if cfg.enableEmailAllowlist {
      var allowed := ParseAllowedDomains(cfg.allowedSenderDomains);
      var accepted := ValidateSender(metadata.senderEmail, allowed);
      if !accepted {
        return Ok(SkippedSender);
      }
    }
    var recorded := RecordEmail(db, cfg, org, input, extract);
    if recorded.Err? {
      return Err(recorded.error);
    }
    r := Ok(Recorded(recorded.value));
    assert RecordedId(r) == recorded;
    RecordedEventKeys(cfg, org, input, extract, old(db.projects), db.projects, old(db.events), db.events, recorded);
  }

  /**
   * What recording a record that passed the filters does: when the model
   * fails, nothing is written; otherwise the e-mail is filed under the
   * project the four steps resolve, with the attachments that were kept.
   */
  ghost predicate EmailRecorded(cfg: Config, org: string, input: RecordInput, extract: AiRequest -> Result<Item, Error>,
                                projectsBefore: map<ProjectKey, Item>, projectsAfter: map<ProjectKey, Item>,
                                eventsBefore: map<EventKey, Item>, eventsAfter: map<EventKey, Item>,
                                r: Result<Value, Error>)
    requires input.notification.Ok? && input.email.Ok? && IsHexString(input.projectHex, 8)
  {
    var email := input.email.value;
    var metadata := ExtractMetadata(email.headers);
    var stored := KeptAttachments(email.attachments, MaxAttachmentBytes(cfg));
    var request := AiRequest(metadata.senderEmail, metadata.subject, SanitizeInput(email.body, MAX_BODY_LENGTH),
                             AttachmentsSummary(stored));
    match extract(request)
    case Err(e) => r == Err(e) && projectsAfter == projectsBefore && eventsAfter == eventsBefore
    case Ok(extracted) =>
      Filed(Resolve(projectsBefore, org, metadata, extracted), projectsBefore, projectsAfter, eventsBefore, eventsAfter,
            org, input.projectHex, input.eventId, input.now, metadata, input.notification.value.objectKey, stored, extracted, r)
  }

  /** A successful recording adds exactly one event, under its project and the current millisecond. */
  lemma RecordedEventKeys(cfg: Config, org: string, input: RecordInput, extract: AiRequest -> Result<Item, Error>,
                          projectsBefore: map<ProjectKey, Item>, projectsAfter: map<ProjectKey, Item>,
                          eventsBefore: map<EventKey, Item>, eventsAfter: map<EventKey, Item>, r: Result<Value, Error>)
    requires input.notification.Ok? && input.email.Ok? && IsHexString(input.projectHex, 8)
    requires EmailRecorded(cfg, org, input, extract, projectsBefore, projectsAfter, eventsBefore, eventsAfter, r)
    requires r.Ok?
    ensures IdText(r.value).Some?
    ensures var k := EventKey(EventPartition(org, IdText(r.value).value), input.now);
      && eventsAfter.Keys == eventsBefore.Keys + {k}
      && (forall k2 :: k2 in eventsBefore && k2 != k ==> eventsAfter[k2] == eventsBefore[k2])
  {
    var email := input.email.value;
    var metadata := ExtractMetadata(email.headers);
    var stored := KeptAttachments(email.attachments, MaxAttachmentBytes(cfg));
    var request := AiRequest(metadata.senderEmail, metadata.subject, SanitizeInput(email.body, MAX_BODY_LENGTH),
                             AttachmentsSummary(stored));
    var extracted := extract(request);
    assert extracted.Ok?;
    FiledEventKeys(Resolve(projectsBefore, org, metadata, extracted.value), projectsBefore, projectsAfter,
                   eventsBefore, eventsAfter, org, input.projectHex, input.eventId, input.now, metadata,
                   input.notification.value.objectKey, stored, extracted.value, r);
  }

  /** A successful filing adds exactly one event, under its project and the current millisecond. */
  lemma FiledEventKeys(res: Resolution, projectsBefore: map<ProjectKey, Item>, projectsAfter: map<ProjectKey, Item>,
                       eventsBefore: map<EventKey, Item>, eventsAfter: map<EventKey, Item>,
                       org: string, hex: string, eventId: string, now: nat, m: Metadata, objectKey: Value,
                       stored: seq<StoredAttachment>, extracted: Item, r: Result<Value, Error>)
    requires IsHexString(hex, 8)
    requires Filed(res, projectsBefore, projectsAfter, eventsBefore, eventsAfter,
                   org, hex, eventId, now, m, objectKey, stored, extracted, r)
    requires r.Ok?
    ensures IdText(r.value).Some?
    ensures var k := EventKey(EventPartition(org, IdText(r.value).value), now);
      && eventsAfter.Keys == eventsBefore.Keys + {k}
      && (forall k2 :: k2 in eventsBefore && k2 != k ==> eventsAfter[k2] == eventsBefore[k2])
  {
    assert !res.ResolveFailed?;
    var pid := ResolvedId(res, hex);
    assert r.value == pid && IdText(pid).Some?;
    var k := EventKey(EventPartition(org, IdText(pid).value), now);
    assert eventsAfter == eventsBefore[k := EmailEvent(org, pid, eventId, now, m, objectKey, stored, extracted)];
  }

  /**
   * The part of `process_email_record` after the filters: store the
   * attachments, ask the model, then file the e-mail. Returns the project id.
   */
  method RecordEmail(db: DbClient, cfg: Config, org: string, input: RecordInput, extract: AiRequest -> Result<Item, Error>)
    returns (r: Result<Value, Error>)
    requires db.Valid() && org != "" && IsHexString(input.projectHex, 8)
    requires input.notification.Ok? && input.email.Ok?
    modifies db
    ensures db.Valid()
    ensures db.organizations == old(db.organizations) && db.users == old(db.users) && db.usage == old(db.usage)
    ensures EmailRecorded(cfg, org, input, extract, old(db.projects), db.projects, old(db.events), db.events, r)
  {
    var email := input.email.value;
    var metadata := ExtractMetadata(email.headers);
    var objectKey := input.notification.value.objectKey;
    var stored := CollectAttachments(email.attachments, MaxAttachmentBytes(cfg));
    var summary := AttachmentsSummary(stored);
    var body := SanitizeInput(email.body, MAX_BODY_LENGTH);
    var extracted := extract(AiRequest(metadata.senderEmail, metadata.subject, body, summary));
    if extracted.Err? {
      return Err(extracted.error);
    }
    r := FileEmail(db, org, metadata, objectKey, stored, extracted.value, input.projectHex, input.eventId, input.now);
  }

  /** The stored e-mail event: the event defaults overridden by the e-mail's fields. */
  function EmailEvent(org: string, pid: Value, eventId: string, now: nat, m: Metadata, objectKey: Value,
                      stored: seq<StoredAttachment>, extracted: Item): Item
    requires IdText(pid).Some?
  {
    Merge(EventDefaults(org, pid, eventId, now), EmailEventData(m, objectKey, stored, extracted))
  }

  /**
   * How filing an e-mail under the resolution `res` leaves both tables: a
   * failed resolution raises and writes nothing; otherwise the project table
   * is first as resolving left it, the e-mail event is stored under
   * `(org#project, now)`, and the project is then patched from the extracted
   * data; the result is the project id, as resolved, unless the patch raised.
   * A list or map id, which the model does not render, stops at the event.
   */
  ghost predicate Filed(res: Resolution, projectsBefore: map<ProjectKey, Item>, projectsAfter: map<ProjectKey, Item>,
                        eventsBefore: map<EventKey, Item>, eventsAfter: map<EventKey, Item>,
                        org: string, hex: string, eventId: string, now: nat, m: Metadata, objectKey: Value,
                        stored: seq<StoredAttachment>, extracted: Item, r: Result<Value, Error>)
    requires IsHexString(hex, 8)
  {
    match res
    case ResolveFailed(e) => r == Err(e) && projectsAfter == projectsBefore && eventsAfter == eventsBefore
    case _ =>
      var pid := ResolvedId(res, hex);
      var projectsResolved := ProjectsAfter(res, projectsBefore, org, hex, now);
      match IdText(pid)
      case None => r == Err(UNRENDERED_ID) && projectsAfter == projectsResolved && eventsAfter == eventsBefore
      case Some(text) =>
        && eventsAfter == eventsBefore[EventKey(EventPartition(org, text), now) :=
                                        EmailEvent(org, pid, eventId, now, m, objectKey, stored, extracted)]
        && MetadataPatched(projectsResolved, projectsAfter, org, text, extracted, now, Failure(r))
        && (r.Ok? ==> r.value == pid)
  }

  /** Finds the project, writes the event under it, then patches the project. */
  method FileEmail(db: DbClient, org: string, metadata: Metadata, objectKey: Value, stored: seq<StoredAttachment>,
                   extracted: Item, hex: string, eventId: string, now: nat)
    returns (r: Result<Value, Error>)
    requires db.Valid() && org != "" && IsHexString(hex, 8)
    modifies db
    ensures db.Valid()
    ensures db.organizations == old(db.organizations) && db.users == old(db.users) && db.usage == old(db.usage)
    ensures Filed(Resolve(old(db.projects), org, metadata, extracted), old(db.projects), db.projects, old(db.events), db.events,
                  org, hex, eventId, now, metadata, objectKey, stored, extracted, r)
  {
    var projectId := DetermineProjectId(db, org, metadata, extracted, hex, now);
    if projectId.Err? {
      return Err(projectId.error);
    }
    r := WriteEmailEvent(db, org, projectId.value, metadata, objectKey, stored, extracted, eventId, now);
  }

  /**
   * Writes the e-mail event under `(org#project, now)`, with the project id
   * stored as it was resolved, and patches the project the id's text names.
   */
  method WriteEmailEvent(db: DbClient, org: string, pid: Value, metadata: Metadata, objectKey: Value,
                         stored: seq<StoredAttachment>, extracted: Item, eventId: string, now: nat)
    returns (r: Result<Value, Error>)
    requires db.Valid() && org != ""
    modifies db
    ensures db.Valid()
    ensures db.organizations == old(db.organizations) && db.users == old(db.users) && db.usage == old(db.usage)
    ensures r.Ok? ==> r.value == pid
    ensures IdText(pid).None? ==>
      r == Err(UNRENDERED_ID) && db.events == old(db.events) && db.projects == old(db.projects)
    ensures IdText(pid).Some? ==>
      var text := IdText(pid).value;
      && db.events == old(db.events)[EventKey(EventPartition(org, text), now) :=
                                       EmailEvent(org, pid, eventId, now, metadata, objectKey, stored, extracted)]
      && MetadataPatched(old(db.projects), db.projects, org, text, extracted, now, Failure(r))
  {
    var data := EmailEventData(metadata, objectKey, stored, extracted);
    if IdText(pid).None? {
      var refused := db.CreateEvent(org, pid, data, eventId, now);
      return Err(refused.error);
    }
    var text := IdText(pid).value;
    EmailEventKey(org, pid, eventId, now, metadata, objectKey, stored, extracted);
    var created := db.CreateEvent(org, pid, data, eventId, now);
    assert created == Ok(eventId);
    var updated := UpdateProjectMetadata(db, org, text, extracted, now);
    if updated.Err? {
      return Err(updated.error);
    }
    r := Ok(pid);
  }

  /**
   * The e-mail event's own fields never override its key, so it lands under
   * `(org#project, now)`, and its tenant is a non-empty string, as the
   * store's tenant index demands.
   */
  lemma EmailEventKey(org: string, pid: Value, eventId: string, now: nat,
                      m: Metadata, objectKey: Value, stored: seq<StoredAttachment>, extracted: Item)
    requires org != "" && IdText(pid).Some?
    ensures var item := EmailEvent(org, pid, eventId, now, m, objectKey, stored, extracted);
      && EventKeyOf(item) == Some(EventKey(EventPartition(org, IdText(pid).value), now)) && TenantIndexed(item)
      && item[PROJECT_ID] == pid
  {
    var data := EmailEventData(m, objectKey, stored, extracted);
    assert ORGANIZATION_ID_PROJECT_ID !in data && EVENT_TIMESTAMP !in data && ORGANIZATION_ID !in data;
  }

  // ---------------------------------------------------------------------------
  // lambda_handler
  // ---------------------------------------------------------------------------

  datatype BatchResult = BatchResult(statusCode: int, processed: nat, failed: nat)

  function CountFailed(outcomes: seq<Result<RecordOutcome, Error>>): (n: nat)
    ensures n <= |outcomes|
  {
    if |outcomes| == 0 then 0
    else CountFailed(outcomes[..|outcomes| - 1]) + (if outcomes[|outcomes| - 1].Err? then 1 else 0)
  }

  /** One more record's verdict extends the tally: the failures grow by one exactly when it failed. */
  lemma VerdictsExtend(cfg: Config, records: seq<RecordInput>, outcomes: seq<Result<RecordOutcome, Error>>,
                       r: Result<RecordOutcome, Error>)
    requires |outcomes| < |records|
    requires forall j :: 0 <= j < |outcomes| ==> RecordVerdict(cfg, records[j], outcomes[j])
    requires RecordVerdict(cfg, records[|outcomes|], r)
    ensures forall j :: 0 <= j < |outcomes| + 1 ==> RecordVerdict(cfg, records[j], (outcomes + [r])[j])
    ensures CountFailed(outcomes + [r]) == CountFailed(outcomes) + (if r.Err? then 1 else 0)
  {
    var next := outcomes + [r];
    forall j | 0 <= j < |outcomes| + 1 ensures RecordVerdict(cfg, records[j], next[j]) {
      if j < |outcomes| { assert next[j] == outcomes[j]; } else { assert next[j] == r; }
    }
    CountFailedAppend(outcomes, r);
  }

  /** Appending one verdict adds one failure exactly when it is an error. */
  lemma CountFailedAppend(outcomes: seq<Result<RecordOutcome, Error>>, r: Result<RecordOutcome, Error>)
    ensures CountFailed(outcomes + [r]) == CountFailed(outcomes) + (if r.Err? then 1 else 0)
  {
    assert (outcomes + [r])[..|outcomes|] == outcomes;
  }

  /**
   * Every record is tried, a failing one included; the counts add up to the
   * batch size and the status is 200 only when nothing failed, 207 otherwise.
   */
  method LambdaHandler(db: DbClient, cfg: Config, org: string, records: seq<RecordInput>,
                       extract: AiRequest -> Result<Item, Error>)
    returns (res: BatchResult, ghost outcomes: seq<Result<RecordOutcome, Error>>)
    requires db.Valid() && org != ""
    requires forall i :: 0 <= i < |records| ==> IsHexString(records[i].projectHex, 8)
    modifies db
    ensures db.Valid()
    ensures |outcomes| == |records|
    ensures res.failed == CountFailed(outcomes)
    ensures res.processed + res.failed == |records|
    ensures res.statusCode == if res.failed == 0 then 200 else 207
    ensures forall i :: 0 <= i < |records| ==> RecordVerdict(cfg, records[i], outcomes[i])
  {
    var processed: nat := 0;
    var failed: nat := 0;
    outcomes := [];
    for i := 0 to |records|
      invariant db.Valid()
      invariant |outcomes| == i
      invariant failed == CountFailed(outcomes)
      invariant processed + failed == i
      invariant forall j :: 0 <= j < i ==> RecordVerdict(cfg, records[j], outcomes[j])
    {
      var r := ProcessEmailRecord(db, cfg, org, records[i], extract);
      VerdictsExtend(cfg, records, outcomes, r);
      outcomes := outcomes + [r];
      if r.Err? {
        failed := failed + 1;
      } else {
        processed := processed + 1;
      }
    }
    res := BatchResult(if failed == 0 then 200 else 207, processed, failed);
  }

  // ---------------------------------------------------------------------------
  // The store calls as the handler writes them
  // ---------------------------------------------------------------------------

  /** The positional parameters (after `self`) of the store methods the handler uses. */
  const STORE_PARAMETERS: map<string, nat> := map[
    "get_project" := 2,
    "get_projects_by_client" := 1,
    "create_project" := 2,
    "create_event" := 3,
    "update_project" := 3
  ]

  datatype StoreCall = StoreCall(name: string, arguments: nat)

  predicate Writes(c: StoreCall) {
    c.name == "create_project" || c.name == "create_event" || c.name == "update_project"
  }

  predicate Accepted(c: StoreCall) {
    c.name in STORE_PARAMETERS && STORE_PARAMETERS[c.name] == c.arguments
  }

  /**
   * The store calls a record that passes the filters would make, in order, when
   * each is given `arguments` positional arguments for `get_project`,
   * `create_project` and `create_event`: the hint check, the extracted-id
   * check, the client lookup, the creation when no single active project
   * exists, then the event.
   */
  function RecordCalls(hint: bool, aiId: bool, oneActive: bool,
                       getProjectArgs: nat, createProjectArgs: nat, createEventArgs: nat): seq<StoreCall> {
    (if hint then [StoreCall("get_project", getProjectArgs)] else [])
    + (if aiId then [StoreCall("get_project", getProjectArgs)] else [])
    + [StoreCall("get_projects_by_client", 1)]
    + (if oneActive then [] else [StoreCall("create_project", createProjectArgs)])
    + [StoreCall("create_event", createEventArgs)]
  }

  /** The calls as written: one argument for `get_project` and `create_project`, two for `create_event`. */
  function RecordCallsAsWritten(hint: bool, aiId: bool, oneActive: bool): seq<StoreCall> {
    RecordCalls(hint, aiId, oneActive, 1, 1, 2)
  }

  /** The calls with the tenant passed first, as the store's signatures ask. */
  function RecordCallsWithTenant(hint: bool, aiId: bool, oneActive: bool): seq<StoreCall> {
    RecordCalls(hint, aiId, oneActive, 2, 2, 3)
  }

  /** The calls that run: up to and including the first one Python rejects with `TypeError`. */
  function Executed(calls: seq<StoreCall>): (r: seq<StoreCall>)
    ensures |r| <= |calls| && r == calls[..|r|]
    ensures forall i :: 0 <= i < |r| - 1 ==> Accepted(r[i])
    ensures |r| < |calls| ==> |r| > 0 && !Accepted(r[|r| - 1])
    ensures (forall i :: 0 <= i < |calls| ==> Accepted(calls[i])) ==> r == calls
  {
    if |calls| == 0 then []
    else if !Accepted(calls[0]) then [calls[0]]
    else [calls[0]] + Executed(calls[1..])
  }

  /**
   * As written, every record that passes the filters stops with a `TypeError`
   * at a store call, and no store write before that point succeeds: no event
   * or project is stored for any e-mail (its attachments have already gone
   * to S3 by then).
   */
  lemma AsWrittenNothingStored(hint: bool, aiId: bool, oneActive: bool)
    ensures var run := Executed(RecordCallsAsWritten(hint, aiId, oneActive));
      |run| > 0 && !Accepted(run[|run| - 1])
      && forall i :: 0 <= i < |run| && Writes(run[i]) ==> !Accepted(run[i])
  {
    var calls := RecordCallsAsWritten(hint, aiId, oneActive);
    assert !Accepted(StoreCall("get_project", 1));
    assert !Accepted(StoreCall("create_project", 1));
    assert !Accepted(StoreCall("create_event", 2));
    assert Accepted(StoreCall("get_projects_by_client", 1));
    if hint || aiId {
      assert Executed(calls) == [StoreCall("get_project", 1)];
    } else if oneActive {
      assert calls == [StoreCall("get_projects_by_client", 1), StoreCall("create_event", 2)];
      assert Executed(calls[1..]) == [StoreCall("create_event", 2)];
      assert Executed(calls) == [StoreCall("get_projects_by_client", 1), StoreCall("create_event", 2)];
    } else {
      assert calls == [StoreCall("get_projects_by_client", 1), StoreCall("create_project", 1), StoreCall("create_event", 2)];
      assert Executed(calls[1..]) == [StoreCall("create_project", 1)];
      assert Executed(calls) == [StoreCall("get_projects_by_client", 1), StoreCall("create_project", 1)];
    }
  }

  /** With the tenant passed, every call is accepted and the event write is reached. */
  lemma WithTenantAllCallsAccepted(hint: bool, aiId: bool, oneActive: bool)
    ensures var calls := RecordCallsWithTenant(hint, aiId, oneActive);
      Executed(calls) == calls && calls[|calls| - 1] == StoreCall("create_event", 3)
  {
    var gp, gc := StoreCall("get_project", 2), StoreCall("get_projects_by_client", 1);
    var cp, ce := StoreCall("create_project", 2), StoreCall("create_event", 3);
    assert Accepted(gp) && Accepted(gc) && Accepted(cp) && Accepted(ce);
    var calls := RecordCallsWithTenant(hint, aiId, oneActive);
    assert calls == (if hint then [gp] else []) + (if aiId then [gp] else []) + [gc]
                    + (if oneActive then [] else [cp]) + [ce];
    forall i | 0 <= i < |calls| ensures Accepted(calls[i]) {
      assert calls[i] in [gp, gc, cp, ce];
    }
  }
}
