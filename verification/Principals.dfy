/**
  Principal-based access: permissions and ACL entries projected to two sorted arrays of
  principal tokens, decisions taken from those arrays, and the rewriting of tokens when one
  entity is merged into another.
 */
module Principals {
  import opened Wrappers
  import opened CanonicalOrder

  // ---- Tokens ------------------------------------------------------------------------

  const WORLD := "world"

  function User(id: string): string { "user:" + id }
  function Entity(id: string): string { "entity:" + id }
  function Group(id: string): string { "group:" + id }
  function Service(name: string): string { "service:" + name }

  datatype Parsed =
    | ParsedUser(id: Option<string>)
    | ParsedEntity(id: Option<string>)
    | ParsedGroup(id: Option<string>)
    | ParsedService(id: Option<string>)
    | ParsedWorld
    | Unknown

  // Index of the first colon, if any.
  function FirstColon(p: string): (r: Option<nat>)
    ensures r.Some? ==> r.value < |p| && p[r.value] == ':' && ':' !in p[..r.value]
    ensures r.None? ==> ':' !in p
  {
    if p == "" then None
    else if p[0] == ':' then Some(0)
    else
      assert p == [p[0]] + p[1..];
      match FirstColon(p[1..])
      case None => None
      case Some(i) =>
        assert p[..i + 1] == [p[0]] + p[1..][..i];
        Some(i + 1)
  }

  function ParsePrincipal(p: string): Parsed {
    if p == WORLD then ParsedWorld
    else
      var colon := FirstColon(p);
      Recognized(
        if colon.None? then p else p[..colon.value],
        if colon.None? then None else Some(p[colon.value + 1..]))
  }

  function Recognized(prefix: string, id: Option<string>): Parsed {
    if prefix == "user" then ParsedUser(id)
    else if prefix == "entity" then ParsedEntity(id)
    else if prefix == "group" then ParsedGroup(id)
    else if prefix == "service" then ParsedService(id)
    else Unknown
  }

  lemma ColonAfter(prefix: string, id: string)
    requires ':' !in prefix
    ensures FirstColon(prefix + ":" + id) == Some(|prefix|)
    ensures (prefix + ":" + id)[..|prefix|] == prefix && (prefix + ":" + id)[|prefix| + 1..] == id
  {
    var p := prefix + ":" + id;
    assert p[|prefix|] == ':';
    var i := FirstColon(p).value;
    if i != |prefix| {
      assert false;
    }
  }

  lemma ParsesAs(prefix: string, id: string)
    requires ':' !in prefix
    ensures ParsePrincipal(prefix + ":" + id) == Recognized(prefix, Some(id))
  {
    ColonAfter(prefix, id);
    hide FirstColon, Recognized;
    assert (prefix + ":" + id)[|prefix|] == ':';
    assert ':' !in WORLD;
  }

  // Parsing undoes every token constructor, whatever the id contains, and nothing but the
  // public token itself parses as public.
  lemma ParsingUndoesTokens(id: string, p: string)
    ensures ParsePrincipal(User(id)) == ParsedUser(Some(id))
    ensures ParsePrincipal(Entity(id)) == ParsedEntity(Some(id))
    ensures ParsePrincipal(Group(id)) == ParsedGroup(Some(id))
    ensures ParsePrincipal(Service(id)) == ParsedService(Some(id))
    ensures ParsePrincipal("user:" + id) == ParsedUser(Some(id)) && ParsePrincipal("entity:" + id) == ParsedEntity(Some(id))
    ensures ParsePrincipal("group:" + id) == ParsedGroup(Some(id)) && ParsePrincipal("service:" + id) == ParsedService(Some(id))
    ensures ParsePrincipal(p) == ParsedWorld <==> p == "world"
  {
    UserParses(id);
    EntityParses(id);
    GroupParses(id);
    ServiceParses(id);
    OnlyWorldIsPublic(p);
    hide ParsePrincipal;
  }

  lemma UserParses(id: string)
    ensures ParsePrincipal(User(id)) == ParsedUser(Some(id))
  {
    hide ParsePrincipal;
    assert User(id) == "user" + ":" + id;
    ParsesAs("user", id);
  }

  lemma EntityParses(id: string)
    ensures ParsePrincipal(Entity(id)) == ParsedEntity(Some(id))
  {
    hide ParsePrincipal;
    assert Entity(id) == "entity" + ":" + id;
    ParsesAs("entity", id);
  }

  lemma GroupParses(id: string)
    ensures ParsePrincipal(Group(id)) == ParsedGroup(Some(id))
  {
    hide ParsePrincipal;
    assert Group(id) == "group" + ":" + id;
    ParsesAs("group", id);
  }

  lemma ServiceParses(id: string)
    ensures ParsePrincipal(Service(id)) == ParsedService(Some(id))
  {
    hide ParsePrincipal;
    assert Service(id) == "service" + ":" + id;
    ParsesAs("service", id);
  }

  lemma OnlyWorldIsPublic(p: string)
    ensures ParsePrincipal(p) == ParsedWorld <==> p == WORLD
  {
    hide FirstColon;
  }

  // A recognized token with an id is exactly the one its constructor builds.
  lemma TokensUndoParsing(p: string, id: string)
    ensures ParsePrincipal(p) == ParsedUser(Some(id)) <==> p == User(id)
    ensures ParsePrincipal(p) == ParsedEntity(Some(id)) <==> p == Entity(id)
    ensures ParsePrincipal(p) == ParsedGroup(Some(id)) <==> p == Group(id)
    ensures ParsePrincipal(p) == ParsedService(Some(id)) <==> p == Service(id)
  {
    ParsingUndoesTokens(id, p);
    RecognizedTokens(p);
    hide ParsePrincipal, FirstColon;
  }

  // Without an id only the bare prefix is left, and whatever begins with no known prefix is
  // unknown, never public.
  lemma UnknownExactly(p: string)
    ensures ParsePrincipal(p) == ParsedUser(None) <==> p == "user"
    ensures ParsePrincipal(p) == ParsedEntity(None) <==> p == "entity"
    ensures ParsePrincipal(p) == ParsedGroup(None) <==> p == "group"
    ensures ParsePrincipal(p) == ParsedService(None) <==> p == "service"
    ensures ParsePrincipal(p) != Unknown <==>
              || p in ["world", "user", "entity", "group", "service"]
              || (exists id :: p == "user:" + id) || (exists id :: p == "entity:" + id)
              || (exists id :: p == "group:" + id) || (exists id :: p == "service:" + id)
  {
    hide ParsePrincipal;
    RecognizedTokens(p);
    BarePrefixes(p);
    ParsingUndoesTokens("", p);
    match ParsePrincipal(p) {
      case ParsedUser(Some(id)) => assert p == "user:" + id;
      case ParsedEntity(Some(id)) => assert p == "entity:" + id;
      case ParsedGroup(Some(id)) => assert p == "group:" + id;
      case ParsedService(Some(id)) => assert p == "service:" + id;
      case _ =>
    }
    forall id ensures ParsePrincipal("user:" + id) != Unknown && ParsePrincipal("entity:" + id) != Unknown
                      && ParsePrincipal("group:" + id) != Unknown && ParsePrincipal("service:" + id) != Unknown {
      ParsingUndoesTokens(id, p);
    }
  }

  lemma BarePrefixes(p: string)
    ensures ParsePrincipal(p) == ParsedUser(None) <==> p == "user"
    ensures ParsePrincipal(p) == ParsedEntity(None) <==> p == "entity"
    ensures ParsePrincipal(p) == ParsedGroup(None) <==> p == "group"
    ensures ParsePrincipal(p) == ParsedService(None) <==> p == "service"
  {
    hide FirstColon;
    if p in ["user", "entity", "group", "service"] {
      assert ':' !in p;
    }
  }

  lemma RecognizedTokens(p: string)
    ensures match ParsePrincipal(p)
            case ParsedUser(Some(id)) => p == User(id)
            case ParsedEntity(Some(id)) => p == Entity(id)
            case ParsedGroup(Some(id)) => p == Group(id)
            case ParsedService(Some(id)) => p == Service(id)
            case _ => true
  {
    hide FirstColon;
    var colon := FirstColon(p);
    if colon.Some? {
      assert p == p[..colon.value] + ":" + p[colon.value + 1..];
      assert p[..colon.value] + ":" == p[..colon.value + 1];
    }
  }

  lemma TokensDiffer(a: string, b: string)
    ensures User(a) != Entity(b) && Group(a) != Entity(b) && WORLD != Entity(b)
    ensures User(a) != Group(b) && User(a) != WORLD && Group(a) != WORLD
    ensures Entity(a) == Entity(b) <==> a == b
    ensures User(a) == User(b) <==> a == b
    ensures Group(a) == Group(b) <==> a == b
  {
    hide ParsePrincipal;
    ParsingUndoesTokens(a, Entity(b));
    ParsingUndoesTokens(b, User(a));
    ParsingUndoesTokens(b, Group(a));
  }

  // ---- Materializing -----------------------------------------------------------------

  datatype Action = Read | Write | Unrecognized(name: string)

  datatype AclEntry = AclEntry(principal: string, actions: seq<Action>)

  datatype AccessInput = AccessInput(
    ownerId: Option<string>, groupId: Option<string>,
    groupRead: bool, groupWrite: bool, worldRead: bool, worldWrite: bool,
    acl: Option<seq<AclEntry>>)

  datatype Materialized = Materialized(read: seq<string>, write: seq<string>)

  // Absent and empty ids count as no id.
  predicate Present(id: Option<string>) {
    id.Some? && id.value != ""
  }

  datatype Need = ToRead | ToWrite

  predicate Grants(entry: AclEntry, need: Need) {
    Write in entry.actions || (need == ToRead && Read in entry.actions)
  }

  function Entries(acl: Option<seq<AclEntry>>): seq<AclEntry> {
    if acl.Some? then acl.value else []
  }

  // Who may read or write: owner, group and world by their flags, and the ACL.
  ghost function Grantees(input: AccessInput, need: Need): set<string> {
    FixedGrantees(input, need) + AclGrantees(Entries(input.acl), need)
  }

  ghost function FixedGrantees(input: AccessInput, need: Need): set<string> {
    (if Present(input.ownerId) then {User(input.ownerId.value)} else {})
    + (if Present(input.groupId) && (input.groupWrite || (need == ToRead && input.groupRead))
       then {Group(input.groupId.value)} else {})
    + (if input.worldWrite || (need == ToRead && input.worldRead) then {WORLD} else {})
  }

  ghost function AclGrantees(acl: seq<AclEntry>, need: Need): set<string> {
    set e | e in acl && Grants(e, need) :: e.principal
  }

  ghost function Materialize(input: AccessInput): Materialized {
    Materialized(Ascending(Grantees(input, ToRead)), Ascending(Grantees(input, ToWrite)))
  }

  lemma GranteesSnoc(acl: seq<AclEntry>, e: AclEntry, need: Need)
    ensures AclGrantees(acl + [e], need) == AclGrantees(acl, need) + (if Grants(e, need) then {e.principal} else {})
  {
  }

  method MaterializePrincipals(input: AccessInput) returns (m: Materialized)
    ensures m == Materialize(input)
  {
    var read: set<string>, write: set<string> := {}, {};
    if Present(input.ownerId) {
      var t := User(input.ownerId.value);
      read, write := read + {t}, write + {t};
    }
    if Present(input.groupId) {
      var t := Group(input.groupId.value);
      if input.groupWrite {
        read, write := read + {t}, write + {t};
      } else if input.groupRead {
        read := read + {t};
      }
    }
    if input.worldWrite {
      read, write := read + {WORLD}, write + {WORLD};
    } else if input.worldRead {
      read := read + {WORLD};
    }
    assert read == FixedGrantees(input, ToRead) && write == FixedGrantees(input, ToWrite);
    read, write := GrantEntries(Entries(input.acl), read, write);
    var readPrincipals := Sorted(read);
    var writePrincipals := Sorted(write);
    m := Materialized(readPrincipals, writePrincipals);
  }

  // An empty or unrecognized action list grants nothing.
  method GrantEntries(acl: seq<AclEntry>, read0: set<string>, write0: set<string>) returns (read: set<string>, write: set<string>)
    ensures read == read0 + AclGrantees(acl, ToRead)
    ensures write == write0 + AclGrantees(acl, ToWrite)
    ensures forall p :: p in read <==> p in read0 || exists e :: e in acl && e.principal == p && (Read in e.actions || Write in e.actions)
    ensures forall p :: p in write <==> p in write0 || exists e :: e in acl && e.principal == p && Write in e.actions
  {
    read, write := read0, write0;
    var i := 0;
    while i < |acl|
      invariant 0 <= i <= |acl|
      invariant read == read0 + AclGrantees(acl[..i], ToRead)
      invariant write == write0 + AclGrantees(acl[..i], ToWrite)
    {
      hide AclGrantees;
      var entry := acl[i];
      var grantsWrite := Write in entry.actions;
      var grantsRead := grantsWrite || Read in entry.actions;
      assert acl[..i + 1] == acl[..i] + [entry];
      GranteesSnoc(acl[..i], entry, ToRead);
      GranteesSnoc(acl[..i], entry, ToWrite);
      if grantsRead {
        read := read + {entry.principal};
      }
      if grantsWrite {
        write := write + {entry.principal};
      }
      i := i + 1;
    }
    assert acl[..i] == acl;
  }

  // Write access implies read access.
  lemma WritersAreReaders(input: AccessInput)
    ensures Elements(Materialize(input).write) <= Elements(Materialize(input).read)
  {
  }

  // ---- Decisions ---------------------------------------------------------------------

  datatype Level = NoAccess | ReadLevel | WriteLevel

  datatype Permissions = Permissions(group: Option<Level>, world: Option<Level>)

  datatype Record = Record(
    ownerId: Option<string>, groupId: Option<string>,
    permissions: Option<Permissions>, acl: Option<seq<AclEntry>>)

  // The legacy reading of the levels: `read` is the default, and a group level needs a group.
  function GroupLevel(rec: Record): Level {
    if !Present(rec.groupId) then NoAccess
    else if rec.permissions.Some? && rec.permissions.value.group.Some? then rec.permissions.value.group.value
    else ReadLevel
  }

  function WorldLevel(rec: Record): Level {
    if rec.permissions.Some? && rec.permissions.value.world.Some? then rec.permissions.value.world.value
    else ReadLevel
  }

  predicate LevelGrants(level: Level, need: Need) {
    level == WriteLevel || (level == ReadLevel && need == ToRead)
  }

  function FromLibraryPermissions(perms: Option<Permissions>, ownerId: Option<string>, groupId: Option<string>): AccessInput {
    var group :=
      if !Present(groupId) then NoAccess
      else if perms.Some? && perms.value.group.Some? then perms.value.group.value
      else ReadLevel;
    var world := if perms.Some? && perms.value.world.Some? then perms.value.world.value else ReadLevel;
    AccessInput(
      if Present(ownerId) then ownerId else None,
      if Present(groupId) then groupId else None,
      group != NoAccess, group == WriteLevel, world != NoAccess, world == WriteLevel, None)
  }

  function LibraryInput(rec: Record): AccessInput {
    FromLibraryPermissions(rec.permissions, rec.ownerId, rec.groupId).(acl := rec.acl)
  }

  method PrincipalsForLibraryRecord(rec: Record) returns (m: Materialized)
    ensures m == Materialize(LibraryInput(rec))
  {
    var input := FromLibraryPermissions(rec.permissions, rec.ownerId, rec.groupId);
    m := MaterializePrincipals(input.(acl := rec.acl));
  }

  // The arrays as a record carries them, if it carries them.
  datatype Stored = Stored(readPrincipals: Option<seq<string>>, writePrincipals: Option<seq<string>>)

  function Store(m: Materialized): Stored {
    Stored(Some(m.read), Some(m.write))
  }

  // A record that was never materialized authorizes nobody.
  predicate CanByPrincipals(record: Stored, principals: seq<string>, need: Need) {
    var arr := if need == ToWrite then record.writePrincipals else record.readPrincipals;
    arr.Some? && exists p :: p in principals && p in arr.value
  }

  // The decision read off the record itself.
  predicate DirectAccess(rec: Record, principals: seq<string>, need: Need) {
    || (Present(rec.ownerId) && User(rec.ownerId.value) in principals)
    || (Present(rec.groupId) && Group(rec.groupId.value) in principals && LevelGrants(GroupLevel(rec), need))
    || (WORLD in principals && LevelGrants(WorldLevel(rec), need))
    || AclAccess(rec, principals, need)
  }

  predicate AclAccess(rec: Record, principals: seq<string>, need: Need) {
    exists e :: e in Entries(rec.acl) && e.principal in principals
                && (Write in e.actions || (need == ToRead && Read in e.actions))
  }

  lemma InArray(input: AccessInput, p: string, need: Need)
    ensures p in (if need == ToWrite then Materialize(input).write else Materialize(input).read) <==> p in Grantees(input, need)
  {
    var m := Materialize(input);
    assert Elements(m.read) == Grantees(input, ToRead) && Elements(m.write) == Grantees(input, ToWrite);
    assert p in m.read <==> p in Elements(m.read);
    assert p in m.write <==> p in Elements(m.write);
  }

  // The arrays decide exactly as owner, defaulted levels and ACL do, for any record and any
  // set of caller principals.
  lemma AccessAgreement(rec: Record, principals: seq<string>, need: Need)
    ensures CanByPrincipals(Store(Materialize(LibraryInput(rec))), principals, need) <==> DirectAccess(rec, principals, need)
  {
    var input := LibraryInput(rec);
    forall p ensures p in (if need == ToWrite then Materialize(input).write else Materialize(input).read) <==> p in Grantees(input, need) {
      InArray(input, p, need);
    }
    hide Materialize;
    if CanByPrincipals(Store(Materialize(input)), principals, need) {
      var p :| p in principals && p in (if need == ToWrite then Materialize(input).write else Materialize(input).read);
      GranteeHasAccess(rec, principals, p, need);
    }
    if DirectAccess(rec, principals, need) {
      var p := AccessHasGrantee(rec, principals, need);
      assert p in (if need == ToWrite then Materialize(input).write else Materialize(input).read);
    }
  }

  // A record without the array asked for authorizes nobody, and the other array has no say.
  lemma MissingArrayDeniesAll(record: Stored, other: Stored, principals: seq<string>)
    ensures record.readPrincipals.None? ==> !CanByPrincipals(record, principals, ToRead)
    ensures record.writePrincipals.None? ==> !CanByPrincipals(record, principals, ToWrite)
    ensures record.readPrincipals == other.readPrincipals ==>
              CanByPrincipals(record, principals, ToRead) == CanByPrincipals(other, principals, ToRead)
    ensures record.writePrincipals == other.writePrincipals ==>
              CanByPrincipals(record, principals, ToWrite) == CanByPrincipals(other, principals, ToWrite)
  {
  }

  // A caller has the access of each of its principals and no more, and one principal has the
  // access that the array names it for.
  lemma AccessIsThatOfAMember(record: Stored, principals: seq<string>, need: Need)
    ensures CanByPrincipals(record, principals, need) <==>
              exists i :: 0 <= i < |principals| && CanByPrincipals(record, [principals[i]], need)
    ensures !CanByPrincipals(record, [], need)
    ensures forall p :: CanByPrincipals(record, [p], ToRead) <==> record.readPrincipals.Some? && p in record.readPrincipals.value
    ensures forall p :: CanByPrincipals(record, [p], ToWrite) <==> record.writePrincipals.Some? && p in record.writePrincipals.value
  {
    forall p: string ensures p in [p] && forall q :: q in [p] ==> q == p {
    }
    if CanByPrincipals(record, principals, need) {
      var p :| p in principals && CanByPrincipals(record, [p], need);
      var i :| 0 <= i < |principals| && principals[i] == p;
      assert CanByPrincipals(record, [principals[i]], need);
    }
    if i :| 0 <= i < |principals| && CanByPrincipals(record, [principals[i]], need) {
      assert principals[i] in principals;
    }
  }

  // A stored record as it is: without its array it denies, and with the materialized one it
  // decides as owner, defaulted levels and ACL do.
  lemma StoredAgreement(rec: Record, record: Stored, principals: seq<string>, need: Need)
    ensures need == ToRead && record.readPrincipals.None? ==> !CanByPrincipals(record, principals, need)
    ensures need == ToWrite && record.writePrincipals.None? ==> !CanByPrincipals(record, principals, need)
    ensures need == ToRead && record.readPrincipals == Some(Materialize(LibraryInput(rec)).read) ==>
              (CanByPrincipals(record, principals, need) <==> DirectAccess(rec, principals, need))
    ensures need == ToWrite && record.writePrincipals == Some(Materialize(LibraryInput(rec)).write) ==>
              (CanByPrincipals(record, principals, need) <==> DirectAccess(rec, principals, need))
  {
    MissingArrayDeniesAll(record, Store(Materialize(LibraryInput(rec))), principals);
    AccessAgreement(rec, principals, need);
    hide Materialize, LibraryInput, CanByPrincipals, DirectAccess;
  }

  // It decides so for every caller exactly if its array names whoever is granted something;
  // without an array, exactly if nobody is.
  lemma StoredAgreesExactly(rec: Record, record: Stored, need: Need)
    ensures (forall principals :: CanByPrincipals(record, principals, need) <==> DirectAccess(rec, principals, need)) <==>
              (forall p :: CanByPrincipals(record, [p], need) <==> p in Grantees(LibraryInput(rec), need))
  {
    var full := Store(Materialize(LibraryInput(rec)));
    SameOnMembers(record, full, need);
    forall principals: seq<string> ensures CanByPrincipals(full, principals, need) <==> DirectAccess(rec, principals, need) {
      AccessAgreement(rec, principals, need);
      hide Materialize, LibraryInput, Store, CanByPrincipals, DirectAccess;
    }
    forall p: string ensures CanByPrincipals(full, [p], need) <==> p in Grantees(LibraryInput(rec), need) {
      OnePrincipal(LibraryInput(rec), p, need);
      hide Materialize, LibraryInput, Store, CanByPrincipals, Grantees;
    }
    hide Materialize, LibraryInput, Store, CanByPrincipals, DirectAccess, Grantees;
  }

  lemma SameOnMembers(a: Stored, b: Stored, need: Need)
    ensures (forall principals :: CanByPrincipals(a, principals, need) <==> CanByPrincipals(b, principals, need)) <==>
              (forall p :: CanByPrincipals(a, [p], need) <==> CanByPrincipals(b, [p], need))
  {
    forall principals: seq<string>
      ensures CanByPrincipals(a, principals, need) <==> exists i :: 0 <= i < |principals| && CanByPrincipals(a, [principals[i]], need)
      ensures CanByPrincipals(b, principals, need) <==> exists i :: 0 <= i < |principals| && CanByPrincipals(b, [principals[i]], need)
    {
      AccessIsThatOfAMember(a, principals, need);
      AccessIsThatOfAMember(b, principals, need);
      hide CanByPrincipals;
    }
    hide CanByPrincipals;
  }

  // Who may do what on a materialized record, in full: the owner anything; the group by its
  // level, which defaults to reading; everybody by the world level, which defaults to reading;
  // and whoever an ACL entry names, where writing includes reading.
  lemma AccessOfOne(rec: Record, p: string, need: Need)
    ensures CanByPrincipals(Store(Materialize(LibraryInput(rec))), [p], need) <==>
              || (rec.ownerId.Some? && rec.ownerId.value != "" && p == "user:" + rec.ownerId.value)
              || (rec.groupId.Some? && rec.groupId.value != "" && p == "group:" + rec.groupId.value
                  && (if rec.permissions.Some? && rec.permissions.value.group.Some?
                      then rec.permissions.value.group.value == WriteLevel
                           || (need == ToRead && rec.permissions.value.group.value == ReadLevel)
                      else need == ToRead))
              || (p == "world"
                  && (if rec.permissions.Some? && rec.permissions.value.world.Some?
                      then rec.permissions.value.world.value == WriteLevel
                           || (need == ToRead && rec.permissions.value.world.value == ReadLevel)
                      else need == ToRead))
              || (rec.acl.Some? && exists e :: e in rec.acl.value && e.principal == p
                                               && (Write in e.actions || (need == ToRead && Read in e.actions)))
  {
    AccessAgreement(rec, [p], need);
    hide Materialize, CanByPrincipals;
    assert forall q :: q in [p] <==> q == p;
  }

  lemma GranteeHasAccess(rec: Record, principals: seq<string>, p: string, need: Need)
    requires p in principals && p in Grantees(LibraryInput(rec), need)
    ensures DirectAccess(rec, principals, need)
  {
  }

  lemma AccessHasGrantee(rec: Record, principals: seq<string>, need: Need) returns (p: string)
    requires DirectAccess(rec, principals, need)
    ensures p in principals && p in Grantees(LibraryInput(rec), need)
  {
    if Present(rec.ownerId) && User(rec.ownerId.value) in principals {
      p := User(rec.ownerId.value);
    } else if Present(rec.groupId) && Group(rec.groupId.value) in principals && LevelGrants(GroupLevel(rec), need) {
      p := Group(rec.groupId.value);
    } else if WORLD in principals && LevelGrants(WorldLevel(rec), need) {
      p := WORLD;
    } else {
      var e :| e in Entries(rec.acl) && e.principal in principals && Grants(e, need);
      p := e.principal;
    }
  }

  // ---- The decision without principals -----------------------------------------------

  // A caller known by user and group only: owner first, then group or else world.
  predicate LegacyAccess(rec: Record, userId: Option<string>, groupId: Option<string>, need: Need) {
    || OwnedBy(rec, userId)
    || LevelGrants(if InGroup(rec, groupId) then GroupLevel(rec) else WorldLevel(rec), need)
  }

  predicate OwnedBy(rec: Record, userId: Option<string>) {
    Present(rec.ownerId) && Present(userId) && rec.ownerId == userId
  }

  predicate InGroup(rec: Record, groupId: Option<string>) {
    Present(rec.groupId) && rec.groupId == groupId
  }

  // The tokens of such a caller; `world` matches every caller.
  function CallerPrincipals(userId: Option<string>, groupId: Option<string>): seq<string> {
    (if Present(userId) then [User(userId.value)] else [])
    + (if Present(groupId) then [Group(groupId.value)] else [])
    + [WORLD]
  }

  lemma CallerTokens(userId: Option<string>, groupId: Option<string>, id: string)
    requires id != ""
    ensures User(id) in CallerPrincipals(userId, groupId) <==> userId == Some(id)
    ensures Group(id) in CallerPrincipals(userId, groupId) <==> groupId == Some(id)
    ensures WORLD in CallerPrincipals(userId, groupId)
  {
    hide User, Group;
    TokensDiffer(id, id);
    if Present(userId) {
      TokensDiffer(userId.value, id);
    }
    if Present(groupId) {
      TokensDiffer(id, groupId.value);
    }
  }

  // The two models differ on a record without an ACL in one family of cases: a group member
  // who is not the owner, denied by the group level and allowed by the world level. The
  // principal model never grants less.
  lemma LegacyAgreement(rec: Record, userId: Option<string>, groupId: Option<string>, need: Need)
    requires Entries(rec.acl) == []
    ensures CanByPrincipals(Store(Materialize(LibraryInput(rec))), CallerPrincipals(userId, groupId), need) == LegacyAccess(rec, userId, groupId, need)
            <==> OwnedBy(rec, userId) || !InGroup(rec, groupId) || LevelGrants(GroupLevel(rec), need) || !LevelGrants(WorldLevel(rec), need)
    ensures LegacyAccess(rec, userId, groupId, need) ==>
              CanByPrincipals(Store(Materialize(LibraryInput(rec))), CallerPrincipals(userId, groupId), need)
  {
    hide Materialize, CanByPrincipals, CallerPrincipals, LibraryInput, Store, LevelGrants, GroupLevel, WorldLevel, DirectAccess,
         OwnedBy, InGroup;
    AccessAgreement(rec, CallerPrincipals(userId, groupId), need);
    CallerAccess(rec, userId, groupId, need);
  }

  lemma CallerAccess(rec: Record, userId: Option<string>, groupId: Option<string>, need: Need)
    requires Entries(rec.acl) == []
    ensures DirectAccess(rec, CallerPrincipals(userId, groupId), need) <==>
              || OwnedBy(rec, userId)
              || (InGroup(rec, groupId) && LevelGrants(GroupLevel(rec), need))
              || LevelGrants(WorldLevel(rec), need)
  {
    hide CallerPrincipals, LevelGrants, GroupLevel, WorldLevel, User, Group;
    if Present(rec.ownerId) {
      CallerTokens(userId, groupId, rec.ownerId.value);
    }
    if Present(rec.groupId) {
      CallerTokens(userId, groupId, rec.groupId.value);
    }
    CallerTokens(userId, groupId, "x");
  }

  // ---- Merging one entity into another -----------------------------------------------

  function Rename(p: string, from: string, to: string): string {
    if p == Entity(from) then Entity(to) else p
  }

  ghost function Renamed(s: set<string>, from: string, to: string): set<string> {
    set p | p in s :: Rename(p, from, to)
  }

  lemma RenamedSnoc(s: seq<string>, x: string, from: string, to: string)
    ensures Renamed(Elements(s + [x]), from, to) == Renamed(Elements(s), from, to) + {Rename(x, from, to)}
  {
    hide Rename;
    assert Elements(s + [x]) == Elements(s) + {x};
    RenamedUnion(Elements(s), {x}, from, to);
    assert Renamed({x}, from, to) == {Rename(x, from, to)};
  }

  lemma RenamedUnion(s: set<string>, t: set<string>, from: string, to: string)
    ensures Renamed(s + t, from, to) == Renamed(s, from, to) + Renamed(t, from, to)
  {
    hide Rename;
  }

  // The array rewriting: untouched when `from` does not occur, otherwise sorted anew.
  ghost function RewrittenArray(arr: seq<string>, from: string, to: string): seq<string> {
    if Entity(from) !in arr then arr else Ascending(Renamed(Elements(arr), from, to))
  }

  method RewritePrincipalReferences(arr: Option<seq<string>>, from: string, to: string) returns (r: Option<seq<string>>)
    ensures r == if arr.None? then None else Some(RewrittenArray(arr.value, from, to))
    ensures arr.None? || Entity(from) !in arr.value ==> r == arr
    ensures arr.Some? && Entity(from) in arr.value ==>
              && r.Some? && IsAscending(r.value)
              && (forall q :: q in r.value <==> q == Entity(to) || (q in arr.value && q != Entity(from)))
  {
    if arr.None? {
      return arr;
    }
    var tokens := arr.value;
    var fromTok := Entity(from);
    if fromTok !in tokens {
      return arr;
    }
    var toTok := Entity(to);
    var out: set<string> := {};
    var i := 0;
    while i < |tokens|
      invariant 0 <= i <= |tokens|
      invariant out == Renamed(Elements(tokens[..i]), from, to)
    {
      assert tokens[..i + 1] == tokens[..i] + [tokens[i]];
      RenamedSnoc(tokens[..i], tokens[i], from, to);
      out := out + {if tokens[i] == fromTok then toTok else tokens[i]};
      i := i + 1;
    }
    assert tokens[..i] == tokens;
    var sorted := Sorted(out);
    r := Some(sorted);
    RenamedTokens(tokens, sorted, from, to);
  }

  lemma RenamedTokens(arr: seq<string>, sorted: seq<string>, from: string, to: string)
    requires Entity(from) in arr && Elements(sorted) == Renamed(Elements(arr), from, to)
    ensures forall q :: q in sorted <==> q == Entity(to) || (q in arr && q != Entity(from))
  {
    forall q ensures q in sorted <==> q == Entity(to) || (q in arr && q != Entity(from)) {
      assert q in sorted <==> q in Elements(sorted);
      assert q in arr <==> q in Elements(arr);
      if q in arr && q != Entity(from) {
        assert Rename(q, from, to) == q;
      }
      if q == Entity(to) {
        assert Entity(from) in Elements(arr) && Rename(Entity(from), from, to) == q;
      }
    }
  }

  // The elements of `s` without repetition, in the order of their first occurrence.
  function Distinct<T(==)>(s: seq<T>): seq<T> {
    if s == [] then []
    else
      var init, last := s[..|s| - 1], s[|s| - 1];
      if last in Distinct(init) then Distinct(init) else Distinct(init) + [last]
  }

  lemma {:induction false} DistinctMeans<T(!new)>(s: seq<T>)
    ensures forall x :: x in Distinct(s) <==> x in s
    ensures forall i, j :: 0 <= i < j < |Distinct(s)| ==> Distinct(s)[i] != Distinct(s)[j]
  {
    if s != [] {
      var init, last := s[..|s| - 1], s[|s| - 1];
      assert s == init + [last];
      DistinctMeans(init);
    }
  }

  lemma DistinctSnoc<T(!new)>(s: seq<T>, x: T)
    ensures Distinct(s + [x]) == if x in Distinct(s) then Distinct(s) else Distinct(s) + [x]
  {
    assert (s + [x])[..|s + [x]| - 1] == s;
  }

  // Principals of the rewritten entries, in order.
  function RenamedPrincipals(acl: seq<AclEntry>, from: string, to: string): seq<string> {
    seq(|acl|, i requires 0 <= i < |acl| => Rename(acl[i].principal, from, to))
  }

  // All actions granted to `p` after renaming, in order.
  function ActionsFor(acl: seq<AclEntry>, from: string, to: string, p: string): seq<Action> {
    if acl == [] then []
    else
      var init, last := acl[..|acl| - 1], acl[|acl| - 1];
      ActionsFor(init, from, to, p) + (if Rename(last.principal, from, to) == p then last.actions else [])
  }

  // The ACL rewriting: untouched when `from` does not occur, otherwise one entry a principal,
  // with the actions of all its entries.
  function RewrittenAcl(acl: seq<AclEntry>, from: string, to: string): seq<AclEntry> {
    if forall e :: e in acl ==> e.principal != Entity(from) then acl
    else MergedEntries(acl, from, to)
  }

  function MergedEntries(acl: seq<AclEntry>, from: string, to: string): seq<AclEntry> {
    var principals := Distinct(RenamedPrincipals(acl, from, to));
    seq(|principals|, i requires 0 <= i < |principals| =>
      AclEntry(principals[i], Distinct(ActionsFor(acl, from, to, principals[i]))))
  }

  method RewriteAclPrincipalReferences(acl: Option<seq<AclEntry>>, from: string, to: string) returns (r: Option<seq<AclEntry>>)
    ensures r == if acl.None? then None else Some(RewrittenAcl(acl.value, from, to))
  {
    if acl.None? {
      return acl;
    }
    var entries := acl.value;
    var fromTok := Entity(from);
    if !exists e :: e in entries && e.principal == fromTok {
      return acl;
    }
    var order, byPrincipal := Grouped(entries, from, to);
    var out := Ungrouped(entries, from, to, order, byPrincipal);
    r := Some(out);
  }

  // Fills the insertion-ordered map: its keys in order, and the action set of each.
  method Grouped(acl: seq<AclEntry>, from: string, to: string) returns (order: seq<string>, byPrincipal: map<string, seq<Action>>)
    ensures IsGrouping(acl, from, to, order, byPrincipal)
  {
    hide Distinct, ActionsFor, RenamedPrincipals, IsGrouping;
    var fromTok, toTok := Entity(from), Entity(to);
    order, byPrincipal := [], map[];
    NothingGrouped(from, to);
    assert acl[..0] == [];
    var i := 0;
    while i < |acl|
      invariant 0 <= i <= |acl|
      invariant IsGrouping(acl[..i], from, to, order, byPrincipal)
    {
      var e := acl[i];
      var principal := if e.principal == fromTok then toTok else e.principal;
      var acts := if principal in byPrincipal then byPrincipal[principal] else [];
      ActionsSoFar(acl[..i], from, to, order, byPrincipal, principal);
      acts := AddAll(acts, e.actions, ActionsFor(acl[..i], from, to, principal));
      assert acl[..i + 1] == acl[..i] + [e];
      GroupingGrows(acl[..i], e, from, to, order, byPrincipal, acts);
      if principal !in byPrincipal {
        order := order + [principal];
      }
      byPrincipal := byPrincipal[principal := acts];
      i := i + 1;
    }
    assert acl[..i] == acl;
  }

  // The entries of the insertion-ordered map.
  method Ungrouped(ghost acl: seq<AclEntry>, ghost from: string, ghost to: string,
                   order: seq<string>, byPrincipal: map<string, seq<Action>>) returns (out: seq<AclEntry>)
    requires IsGrouping(acl, from, to, order, byPrincipal)
    ensures out == MergedEntries(acl, from, to)
  {
    hide Distinct, ActionsFor, RenamedPrincipals;
    out := [];
    var i := 0;
    while i < |order|
      invariant 0 <= i <= |order| == |MergedEntries(acl, from, to)|
      invariant out == MergedEntries(acl, from, to)[..i]
    {
      out := out + [AclEntry(order[i], byPrincipal[order[i]])];
      i := i + 1;
    }
  }

  // The grouping of a list of entries by their renamed principals.
  ghost predicate IsGrouping(acl: seq<AclEntry>, from: string, to: string, order: seq<string>, byPrincipal: map<string, seq<Action>>) {
    && order == Distinct(RenamedPrincipals(acl, from, to))
    && (forall p :: p in byPrincipal <==> p in order)
    && (forall p :: p in byPrincipal ==> byPrincipal[p] == Distinct(ActionsFor(acl, from, to, p)))
    && (forall p :: p !in byPrincipal ==> ActionsFor(acl, from, to, p) == [])
  }

  lemma ActionsSoFar(acl: seq<AclEntry>, from: string, to: string, order: seq<string>, byPrincipal: map<string, seq<Action>>, p: string)
    requires IsGrouping(acl, from, to, order, byPrincipal)
    ensures (if p in byPrincipal then byPrincipal[p] else []) == Distinct(ActionsFor(acl, from, to, p))
  {
    hide ActionsFor, RenamedPrincipals;
  }

  lemma NothingGrouped(from: string, to: string)
    ensures IsGrouping([], from, to, [], map[])
  {
  }

  lemma GroupingGrows(acl: seq<AclEntry>, e: AclEntry, from: string, to: string,
                      order: seq<string>, byPrincipal: map<string, seq<Action>>, acts: seq<Action>)
    requires IsGrouping(acl, from, to, order, byPrincipal)
    requires acts == Distinct(ActionsFor(acl, from, to, Rename(e.principal, from, to)) + e.actions)
    ensures var p := Rename(e.principal, from, to);
            IsGrouping(acl + [e], from, to, if p in byPrincipal then order else order + [p], byPrincipal[p := acts])
  {
    hide Distinct, ActionsFor, RenamedPrincipals, Rename;
    NextEntry(acl, e, from, to);
  }

  // Adds actions to an insertion-ordered set.
  method AddAll(acts: seq<Action>, actions: seq<Action>, ghost before: seq<Action>) returns (r: seq<Action>)
    requires acts == Distinct(before)
    ensures r == Distinct(before + actions)
  {
    r := acts;
    var i := 0;
    assert before + actions[..0] == before;
    while i < |actions|
      invariant 0 <= i <= |actions|
      invariant r == Distinct(before + actions[..i])
    {
      DistinctSnoc(before + actions[..i], actions[i]);
      assert before + actions[..i + 1] == before + actions[..i] + [actions[i]];
      if actions[i] !in r {
        r := r + [actions[i]];
      }
      i := i + 1;
    }
    assert actions[..i] == actions;
  }

  lemma NextEntry(acl: seq<AclEntry>, e: AclEntry, from: string, to: string)
    ensures var p := Rename(e.principal, from, to);
            var seen := Distinct(RenamedPrincipals(acl, from, to));
            Distinct(RenamedPrincipals(acl + [e], from, to)) == if p in seen then seen else seen + [p]
    ensures forall q :: ActionsFor(acl + [e], from, to, q) ==
                          if Rename(e.principal, from, to) == q then ActionsFor(acl, from, to, q) + e.actions else ActionsFor(acl, from, to, q)
  {
    assert (acl + [e])[..|acl|] == acl;
    assert RenamedPrincipals(acl + [e], from, to) == RenamedPrincipals(acl, from, to) + [Rename(e.principal, from, to)];
    DistinctSnoc(RenamedPrincipals(acl, from, to), Rename(e.principal, from, to));
  }

  lemma {:induction false} ActionsForMeans(acl: seq<AclEntry>, from: string, to: string, p: string, a: Action)
    ensures a in ActionsFor(acl, from, to, p) <==>
              exists e :: e in acl && Rename(e.principal, from, to) == p && a in e.actions
  {
    if acl != [] {
      var init, last := acl[..|acl| - 1], acl[|acl| - 1];
      ActionsForMeans(init, from, to, p, a);
      assert acl == init + [last];
    }
  }

  // What the rewriting means: a principal holds an action afterwards exactly when some entry
  // gave it under its old name.
  lemma RewrittenAclGrants(acl: seq<AclEntry>, from: string, to: string, p: string, a: Action)
    ensures (exists e :: e in RewrittenAcl(acl, from, to) && e.principal == p && a in e.actions) <==>
              (exists e :: e in acl && Rename(e.principal, from, to) == p && a in e.actions)
  {
    if exists e :: e in acl && e.principal == Entity(from) {
      MergedEntriesGrant(acl, from, to, p, a);
    } else {
      forall e | e in acl ensures Rename(e.principal, from, to) == e.principal {
      }
    }
  }

  lemma RenamedPrincipalAt(acl: seq<AclEntry>, from: string, to: string, i: nat)
    requires i < |acl|
    ensures Rename(acl[i].principal, from, to) in RenamedPrincipals(acl, from, to)
  {
    assert RenamedPrincipals(acl, from, to)[i] == Rename(acl[i].principal, from, to);
  }

  lemma MergedEntriesGrant(acl: seq<AclEntry>, from: string, to: string, p: string, a: Action)
    ensures (exists e :: e in MergedEntries(acl, from, to) && e.principal == p && a in e.actions) <==>
              (exists e :: e in acl && Rename(e.principal, from, to) == p && a in e.actions)
  {
    var merged := MergedEntries(acl, from, to);
    var principals := Distinct(RenamedPrincipals(acl, from, to));
    ActionsForMeans(acl, from, to, p, a);
    DistinctMeans(RenamedPrincipals(acl, from, to));
    DistinctMeans(ActionsFor(acl, from, to, p));
    hide Distinct, ActionsFor, RenamedPrincipals;
    if e :| e in merged && e.principal == p && a in e.actions {
      var i :| 0 <= i < |merged| && merged[i] == e;
      assert a in ActionsFor(acl, from, to, principals[i]);
    }
    if e :| e in acl && Rename(e.principal, from, to) == p && a in e.actions {
      var i :| 0 <= i < |acl| && acl[i] == e;
      RenamedPrincipalAt(acl, from, to, i);
      assert p in principals;
      var k :| 0 <= k < |principals| && principals[k] == p;
      assert merged[k].principal == p && a in merged[k].actions;
    }
  }

  // Once something is renamed, every principal has one entry, naming each action once.
  lemma OneEntryPerPrincipal(acl: seq<AclEntry>, from: string, to: string)
    requires exists e :: e in acl && e.principal == Entity(from)
    ensures forall i, j :: 0 <= i < j < |RewrittenAcl(acl, from, to)| ==>
                             RewrittenAcl(acl, from, to)[i].principal != RewrittenAcl(acl, from, to)[j].principal
    ensures forall e :: e in RewrittenAcl(acl, from, to) ==>
                          forall j, k :: 0 <= j < k < |e.actions| ==> e.actions[j] != e.actions[k]
  {
    var principals := Distinct(RenamedPrincipals(acl, from, to));
    DistinctMeans(RenamedPrincipals(acl, from, to));
    forall i | 0 <= i < |principals|
      ensures forall j, k :: 0 <= j < k < |MergedEntries(acl, from, to)[i].actions| ==>
                               MergedEntries(acl, from, to)[i].actions[j] != MergedEntries(acl, from, to)[i].actions[k]
    {
      DistinctMeans(ActionsFor(acl, from, to, principals[i]));
    }
    hide Distinct, ActionsFor, RenamedPrincipals;
  }

  // Rewritten entries stand in the order in which their principals first occur: where the
  // earlier one was first seen, the later one had not been.
  lemma FirstSeenFirst(acl: seq<AclEntry>, from: string, to: string, i: nat, j: nat) returns (k: nat)
    requires exists e :: e in acl && e.principal == Entity(from)
    requires i < j < |RewrittenAcl(acl, from, to)|
    ensures k < |acl| && Rename(acl[k].principal, from, to) == RewrittenAcl(acl, from, to)[i].principal
    ensures forall m :: 0 <= m <= k ==> Rename(acl[m].principal, from, to) != RewrittenAcl(acl, from, to)[j].principal
  {
    var principals := RenamedPrincipals(acl, from, to);
    k := DistinctInOrder(principals, i, j);
    hide Distinct;
    forall m | 0 <= m <= k ensures Rename(acl[m].principal, from, to) != Distinct(principals)[j] {
      assert principals[m] == Rename(acl[m].principal, from, to);
    }
  }

  lemma {:induction false} DistinctInOrder<T(!new)>(s: seq<T>, i: nat, j: nat) returns (k: nat)
    requires i < j < |Distinct(s)|
    ensures k < |s| && s[k] == Distinct(s)[i]
    ensures forall m :: 0 <= m <= k ==> s[m] != Distinct(s)[j]
  {
    var init, last := s[..|s| - 1], s[|s| - 1];
    DistinctMeans(init);
    if j < |Distinct(init)| {
      k := DistinctInOrder(init, i, j);
    } else {
      assert Distinct(init)[i] in init;
      k :| 0 <= k < |init| && init[k] == Distinct(init)[i];
      assert forall m :: 0 <= m <= k ==> s[m] == init[m] && init[m] in init;
    }
  }

  lemma AclGranteesRenamed(acl: seq<AclEntry>, from: string, to: string, need: Need)
    ensures AclGrantees(RewrittenAcl(acl, from, to), need) == Renamed(AclGrantees(acl, need), from, to)
  {
    forall p ensures p in AclGrantees(RewrittenAcl(acl, from, to), need) <==> p in Renamed(AclGrantees(acl, need), from, to) {
      RewrittenAclGrants(acl, from, to, p, Read);
      RewrittenAclGrants(acl, from, to, p, Write);
      hide RewrittenAcl;
      GranteeHasAction(RewrittenAcl(acl, from, to), p, need);
      RenamedGrantee(acl, from, to, p, need);
      hide AclGrantees, Renamed, Grants;
    }
  }

  lemma GranteeHasAction(acl: seq<AclEntry>, p: string, need: Need)
    ensures p in AclGrantees(acl, need) <==>
              || (exists e :: e in acl && e.principal == p && Write in e.actions)
              || (need == ToRead && exists e :: e in acl && e.principal == p && Read in e.actions)
  {
  }

  lemma RenamedGrantee(acl: seq<AclEntry>, from: string, to: string, p: string, need: Need)
    ensures p in Renamed(AclGrantees(acl, need), from, to) <==>
              || (exists e :: e in acl && Rename(e.principal, from, to) == p && Write in e.actions)
              || (need == ToRead && exists e :: e in acl && Rename(e.principal, from, to) == p && Read in e.actions)
  {
    hide Rename;
    if e :| e in acl && Rename(e.principal, from, to) == p && Grants(e, need) {
      assert e.principal in AclGrantees(acl, need);
    }
  }

  lemma GranteesRenamed(input: AccessInput, from: string, to: string, need: Need)
    ensures Grantees(WithRewrittenAcl(input, from, to), need) == Renamed(Grantees(input, need), from, to)
  {
    AclGranteesRenamed(Entries(input.acl), from, to, need);
    FixedGranteesKeepNames(input, from, to, need);
    RenamedUnion(FixedGrantees(input, need), AclGrantees(Entries(input.acl), need), from, to);
    RewrittenEntries(input, from, to);
    hide AclGrantees, FixedGrantees, RewrittenAcl, Renamed, Entries, WithRewrittenAcl;
  }

  lemma RewrittenEntries(input: AccessInput, from: string, to: string)
    ensures Entries(WithRewrittenAcl(input, from, to).acl) == RewrittenAcl(Entries(input.acl), from, to)
  {
  }

  lemma FixedGranteesKeepNames(input: AccessInput, from: string, to: string, need: Need)
    ensures Renamed(FixedGrantees(input, need), from, to) == FixedGrantees(input, need)
    ensures FixedGrantees(WithRewrittenAcl(input, from, to), need) == FixedGrantees(input, need)
  {
    hide RewrittenAcl;
    forall p | p in FixedGrantees(input, need) ensures Rename(p, from, to) == p {
      if input.ownerId.Some? {
        TokensDiffer(input.ownerId.value, from);
      }
      if input.groupId.Some? {
        TokensDiffer(input.groupId.value, from);
      }
      TokensDiffer("", from);
    }
  }

  function WithRewrittenAcl(input: AccessInput, from: string, to: string): AccessInput {
    if input.acl.None? then input else input.(acl := Some(RewrittenAcl(input.acl.value, from, to)))
  }

  // An ascending array is rewritten to the ascending array of the renamed tokens, whether or
  // not `from` occurs in it.
  lemma RewrittenArrayIsCanonical(s: set<string>, from: string, to: string)
    ensures RewrittenArray(Ascending(s), from, to) == Ascending(Renamed(s, from, to))
  {
    var arr := Ascending(s);
    assert Elements(arr) == s;
    if Entity(from) !in arr {
      forall p ensures p in Renamed(s, from, to) <==> p in s {
        assert p in Elements(arr) <==> p in arr;
        if p in s {
          assert Rename(p, from, to) in Renamed(s, from, to);
        }
        if p in Renamed(s, from, to) {
          var q :| q in s && Rename(q, from, to) == p;
          assert q in arr;
        }
      }
      assert Renamed(s, from, to) == s;
    }
  }

  // Merging commutes with materializing: rewriting the ACL and projecting it gives the very
  // arrays that rewriting the projected arrays gives.
  lemma MergeCommutesWithMaterialize(input: AccessInput, from: string, to: string)
    ensures Materialize(WithRewrittenAcl(input, from, to)) ==
              Materialized(RewrittenArray(Materialize(input).read, from, to), RewrittenArray(Materialize(input).write, from, to))
  {
    GranteesRenamed(input, from, to, ToRead);
    GranteesRenamed(input, from, to, ToWrite);
    hide Grantees, RewrittenArray, Ascending;
    RewrittenArrayIsCanonical(Grantees(input, ToRead), from, to);
    RewrittenArrayIsCanonical(Grantees(input, ToWrite), from, to);
  }

  // After merging `from` into `to`: holders of `to` have what either had, `from`, if it is
  // another entity, has nothing, and nobody else gains or loses.
  lemma MergeMovesExactlyThatAccess(input: AccessInput, from: string, to: string, p: string, need: Need)
    ensures CanByPrincipals(Store(Materialize(WithRewrittenAcl(input, from, to))), [p], need) <==>
              if p == Entity(to) then
                CanByPrincipals(Store(Materialize(input)), [Entity(from)], need) || CanByPrincipals(Store(Materialize(input)), [Entity(to)], need)
              else p != Entity(from) && CanByPrincipals(Store(Materialize(input)), [p], need)
  {
    TokensDiffer(from, to);
    OnePrincipal(WithRewrittenAcl(input, from, to), p, need);
    OnePrincipal(input, p, need);
    OnePrincipal(input, Entity(from), need);
    OnePrincipal(input, Entity(to), need);
    GranteesRenamed(input, from, to, need);
    hide CanByPrincipals, Materialize, Grantees, WithRewrittenAcl;
    var s := Grantees(input, need);
    if p == Entity(to) {
      if Entity(from) in s {
        assert Rename(Entity(from), from, to) == p;
      }
      if Entity(to) in s {
        assert Rename(Entity(to), from, to) == p;
      }
    } else if p != Entity(from) && p in s {
      assert Rename(p, from, to) == p;
    }
  }

  lemma OnePrincipal(input: AccessInput, p: string, need: Need)
    ensures CanByPrincipals(Store(Materialize(input)), [p], need) <==> p in Grantees(input, need)
  {
    InArray(input, p, need);
    hide Materialize, Grantees;
    assert p in [p];
  }

  // Merges of chains agree in any order: a into b and then b into c, or b into c and then a
  // into c, leave the same arrays.
  lemma MergesOfAChainAgree(s: set<string>, a: string, b: string, c: string)
    ensures RewrittenArray(RewrittenArray(Ascending(s), a, b), b, c) == RewrittenArray(RewrittenArray(Ascending(s), b, c), a, c)
  {
    RewrittenArrayIsCanonical(s, a, b);
    RewrittenArrayIsCanonical(Renamed(s, a, b), b, c);
    RewrittenArrayIsCanonical(s, b, c);
    RewrittenArrayIsCanonical(Renamed(s, b, c), a, c);
    RenamedChain(s, a, b, c);
    hide RewrittenArray, Ascending, Renamed;
  }

  lemma RenamedChain(s: set<string>, a: string, b: string, c: string)
    ensures Renamed(Renamed(s, a, b), b, c) == Renamed(Renamed(s, b, c), a, c)
  {
    forall p ensures p in Renamed(Renamed(s, a, b), b, c) <==> p in Renamed(Renamed(s, b, c), a, c) {
      RenamedTwice(s, a, b, b, c, p);
      RenamedTwice(s, b, c, a, c, p);
      forall q ensures Rename(Rename(q, a, b), b, c) == Rename(Rename(q, b, c), a, c) {
        TokensDiffer(a, b);
        TokensDiffer(a, c);
      }
      hide Rename, Renamed;
    }
  }

  lemma RenamedTwice(s: set<string>, a: string, b: string, c: string, d: string, p: string)
    ensures p in Renamed(Renamed(s, a, b), c, d) <==> exists q :: q in s && Rename(Rename(q, a, b), c, d) == p
  {
    hide Rename;
    if q :| q in s && Rename(Rename(q, a, b), c, d) == p {
      assert Rename(q, a, b) in Renamed(s, a, b);
    }
  }
}
