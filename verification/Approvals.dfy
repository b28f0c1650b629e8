/**
 * Approval requests, their options and decisions: how permission grants are
 * flattened into one set of permissions, and how a decision is normalized
 * against the request it answers.
 */
module Approvals {
  import opened Common

  // ----- Grants -----

  datatype Permissions = Permissions(network: bool, readRoots: seq<string>, writeRoots: seq<string>)

  predicate ValidPermissions(p: Permissions) {
    p.network || p.readRoots != [] || p.writeRoots != []
  }

  datatype Scope = Once | Session

  datatype Grant = Grant(permissions: Permissions, scope: Scope, commandPrefix: seq<string>)

  predicate ValidGrant(g: Grant) {
    ValidPermissions(g.permissions) && (g.commandPrefix != [] ==> g.permissions.network)
  }

  predicate ValidGrants(grants: seq<Grant>) {
    forall i :: 0 <= i < |grants| ==> ValidGrant(grants[i])
  }

  /** `tuple(dict.fromkeys(s))`: a key keeps the place where it was first put. */
  function Dedupe(s: seq<string>): (d: seq<string>)
    ensures forall x :: x in d <==> x in s
    ensures Distinct(d)
  {
    if s == [] then []
    else
      var last := s[|s| - 1];
      var d := Dedupe(s[..|s| - 1]);
      assert s == s[..|s| - 1] + [last];
      if last in d then d else d + [last]
  }

  ghost predicate Distinct(s: seq<string>) {
    forall i, j :: 0 <= i < j < |s| ==> s[i] != s[j]
  }

  function ReadRoots(grants: seq<Grant>): seq<string> {
    if grants == [] then [] else ReadRoots(grants[..|grants| - 1]) + grants[|grants| - 1].permissions.readRoots
  }

  function WriteRoots(grants: seq<Grant>): seq<string> {
    if grants == [] then [] else WriteRoots(grants[..|grants| - 1]) + grants[|grants| - 1].permissions.writeRoots
  }

  predicate EnablesNetwork(grants: seq<Grant>) {
    exists i :: 0 <= i < |grants| && grants[i].permissions.network
  }

  /** The grants as one set of permissions; none for no grants. */
  function Flatten(grants: seq<Grant>): Option<Permissions> {
    if grants == [] then None
    else Some(Permissions(EnablesNetwork(grants), Dedupe(ReadRoots(grants)), Dedupe(WriteRoots(grants))))
  }

  lemma {:induction false} RootsAreCollected(grants: seq<Grant>, i: nat, root: string)
    requires i < |grants|
    ensures root in grants[i].permissions.readRoots ==> root in ReadRoots(grants)
    ensures root in grants[i].permissions.writeRoots ==> root in WriteRoots(grants)
  {
    if i < |grants| - 1 {
      RootsAreCollected(grants[..|grants| - 1], i, root);
    }
  }

  /** Valid grants never flatten to the empty delta, which is not allowed. */
  lemma FlattenIsValid(grants: seq<Grant>)
    requires ValidGrants(grants) && grants != []
    ensures ValidPermissions(Flatten(grants).value)
  {
    hide Dedupe, ReadRoots, WriteRoots;
    var p := grants[0].permissions;
    assert ValidGrant(grants[0]);
    if p.readRoots != [] {
      RootsAreCollected(grants, 0, p.readRoots[0]);
      assert p.readRoots[0] in Dedupe(ReadRoots(grants));
    } else if p.writeRoots != [] {
      RootsAreCollected(grants, 0, p.writeRoots[0]);
      assert p.writeRoots[0] in Dedupe(WriteRoots(grants));
    }
  }

  method FlattenPermissionGrants(grants: seq<Grant>) returns (flat: Option<Permissions>)
    requires ValidGrants(grants)
    ensures flat == Flatten(grants)
    ensures flat.Some? ==> ValidPermissions(flat.value)
  {
    if grants == [] {
      return None;
    }
    var network, readRoots, writeRoots := false, [], [];
    for i := 0 to |grants|
      invariant network == EnablesNetwork(grants[..i])
      invariant readRoots == ReadRoots(grants[..i]) && writeRoots == WriteRoots(grants[..i])
    {
      assert grants[..i + 1][..i] == grants[..i];
      if grants[i].permissions.network {
        network := true;
        assert grants[..i + 1][i].permissions.network;
      }
      readRoots := readRoots + grants[i].permissions.readRoots;
      writeRoots := writeRoots + grants[i].permissions.writeRoots;
    }
    assert grants[..|grants|] == grants;
    FlattenIsValid(grants);
    flat := Some(Permissions(network, Dedupe(readRoots), Dedupe(writeRoots)));
  }

  // ----- What flattening keeps -----

  function FirstIndex(s: seq<string>, x: string): (i: nat)
    requires x in s
    ensures i < |s| && s[i] == x && x !in s[..i]
  {
    if s[0] == x then 0 else 1 + FirstIndex(s[1..], x)
  }

  lemma {:induction false} FirstIndexStays(s: seq<string>, more: seq<string>, x: string)
    requires x in s
    ensures FirstIndex(s + more, x) == FirstIndex(s, x)
  {
    assert (s + more)[0] == s[0] && (s + more)[1..] == s[1..] + more;
    if s[0] != x {
      FirstIndexStays(s[1..], more, x);
    }
  }

  /** The roots come out in the order in which each was first named. */
  lemma {:induction false} DedupeKeepsFirstOrder(s: seq<string>, i: nat, j: nat)
    requires i < j < |Dedupe(s)|
    ensures FirstIndex(s, Dedupe(s)[i]) < FirstIndex(s, Dedupe(s)[j])
  {
    hide FirstIndex;
    var front, last := s[..|s| - 1], s[|s| - 1];
    var d := Dedupe(front);
    assert s == front + [last];
    FirstIndexStays(front, [last], d[i]);
    if j < |d| {
      DedupeKeepsFirstOrder(front, i, j);
      FirstIndexStays(front, [last], d[j]);
    } else {
      assert last !in front;
      assert forall k :: 0 <= k < |front| ==> s[k] == front[k] && front[k] in front;
      assert FirstIndex(s, last) == |front|;
    }
  }

  lemma DedupeLast(s: seq<string>, x: string)
    ensures Dedupe(s + [x]) == if x in s then Dedupe(s) else Dedupe(s) + [x]
  {
  }

  lemma {:induction false} DedupeAppend(a: seq<string>, b: seq<string>)
    ensures Dedupe(a + b) == Dedupe(Dedupe(a) + Dedupe(b))
    decreases |b|
  {
    hide Dedupe;
    if b == [] {
      assert a + b == a;
      NothingDeduped(Dedupe(a), b);
      DistinctStays(Dedupe(a));
    } else {
      var front, last := b[..|b| - 1], b[|b| - 1];
      assert b == front + [last];
      DedupeAppend(a, front);
      ConcatAssociative(a, front, [last]);
      DedupeLast(a + front, last);
      DedupeLast(front, last);
      if last !in front {
        ConcatAssociative(Dedupe(a), Dedupe(front), [last]);
        DedupeLast(Dedupe(a) + Dedupe(front), last);
      }
    }
  }

  lemma NothingDeduped(d: seq<string>, none: seq<string>)
    requires none == []
    ensures d + Dedupe(none) == d
  {
  }

  lemma {:induction false} DistinctStays(s: seq<string>)
    requires Distinct(s)
    ensures Dedupe(s) == s
  {
    if s != [] {
      DistinctStays(s[..|s| - 1]);
      assert s == s[..|s| - 1] + [s[|s| - 1]];
    }
  }

  lemma RootsLast(front: seq<Grant>, g: Grant)
    ensures ReadRoots(front + [g]) == ReadRoots(front) + g.permissions.readRoots
    ensures WriteRoots(front + [g]) == WriteRoots(front) + g.permissions.writeRoots
  {
    assert (front + [g])[..|front|] == front;
  }

  lemma {:induction false} RootsAppend(a: seq<Grant>, b: seq<Grant>)
    ensures ReadRoots(a + b) == ReadRoots(a) + ReadRoots(b)
    ensures WriteRoots(a + b) == WriteRoots(a) + WriteRoots(b)
    decreases |b|
  {
    hide ReadRoots, WriteRoots;
    if b == [] {
      assert a + b == a;
      NoRoots();
    } else {
      var front, g := b[..|b| - 1], b[|b| - 1];
      assert b == front + [g];
      ConcatAssociative(a, front, [g]);
      RootsAppend(a, front);
      RootsLast(a + front, g);
      RootsLast(front, g);
      ConcatAssociative(ReadRoots(a), ReadRoots(front), g.permissions.readRoots);
      ConcatAssociative(WriteRoots(a), WriteRoots(front), g.permissions.writeRoots);
    }
  }

  lemma NoRoots()
    ensures ReadRoots([]) == [] && WriteRoots([]) == []
  {
  }

  function Merge(a: Option<Permissions>, b: Option<Permissions>): Option<Permissions> {
    if a.None? then b
    else if b.None? then a
    else Some(Permissions(a.value.network || b.value.network,
                          Dedupe(a.value.readRoots + b.value.readRoots),
                          Dedupe(a.value.writeRoots + b.value.writeRoots)))
  }

  /** Two lists of grants flatten together to what their flattenings merge to. */
  lemma FlattenAppend(a: seq<Grant>, b: seq<Grant>)
    ensures Flatten(a + b) == Merge(Flatten(a), Flatten(b))
  {
    hide Dedupe, ReadRoots, WriteRoots;
    if a == [] {
      assert a + b == b;
    } else if b == [] {
      assert a + b == a;
    } else {
      NetworkAppend(a, b);
      RootsAppend(a, b);
      DedupeAppend(ReadRoots(a), ReadRoots(b));
      DedupeAppend(WriteRoots(a), WriteRoots(b));
    }
  }

  lemma NetworkAppend(a: seq<Grant>, b: seq<Grant>)
    ensures EnablesNetwork(a + b) <==> EnablesNetwork(a) || EnablesNetwork(b)
  {
    assert forall i :: 0 <= i < |a| ==> (a + b)[i] == a[i];
    assert forall i :: 0 <= i < |b| ==> (a + b)[|a| + i] == b[i];
    forall i | 0 <= i < |a + b| && (a + b)[i].permissions.network
      ensures EnablesNetwork(a) || EnablesNetwork(b)
    {
      assert (a + b)[i] == if i < |a| then a[i] else b[i - |a|];
    }
  }

  /** One grant flattens to its own permissions exactly when it names no root
      twice; flattened permissions never do. */
  lemma FlattenSingle(g: Grant)
    ensures Flatten([g]) == Some(g.permissions)
            <==> Distinct(g.permissions.readRoots) && Distinct(g.permissions.writeRoots)
  {
    hide ReadRoots, WriteRoots;
    var gs := [g];
    SingleRoots(g);
    assert gs[0].permissions.network == EnablesNetwork(gs);
    if Distinct(g.permissions.readRoots) && Distinct(g.permissions.writeRoots) {
      DistinctStays(g.permissions.readRoots);
      DistinctStays(g.permissions.writeRoots);
    }
  }

  lemma SingleRoots(g: Grant)
    ensures ReadRoots([g]) == g.permissions.readRoots && WriteRoots([g]) == g.permissions.writeRoots
  {
  }

  /** Flattening what was flattened changes nothing. */
  lemma FlattenTwice(grants: seq<Grant>, scope: Scope, commandPrefix: seq<string>)
    requires grants != []
    ensures Flatten([Grant(Flatten(grants).value, scope, commandPrefix)]) == Flatten(grants)
  {
    FlattenSingle(Grant(Flatten(grants).value, scope, commandPrefix));
  }

  // ----- Requests, options and decisions -----

  datatype Verdict = Approved | Denied

  datatype Choice = Choice(id: string, verdict: Verdict, permissions: Option<Permissions>, grants: seq<Grant>)

  datatype Decision = Decision(requestId: string, verdict: Verdict, optionId: Option<string>,
                               permissions: Option<Permissions>, grants: seq<Grant>)

  datatype Request = Request(requestId: string, permissions: Option<Permissions>, grants: seq<Grant>,
                             options: seq<Choice>)

  datatype Error =
    | GrantsNeedPermissions
    | PermissionsNeedGrants
    | NotTheFlattenedGrants
    | DeniedWithGrants
    | DuplicateOptionId
    | OtherRequest
    | OptionVerdictMismatch
    | UnknownOption
    | NoOptionForGrants
    | NothingWasRequested
    | NotTheRequestedGrants

  /** Permissions and the grants they summarize come together or not at all. */
  function GrantsError(permissions: Option<Permissions>, grants: seq<Grant>): Option<Error> {
    if permissions.None? && grants == [] then None
    else if permissions.None? then Some(GrantsNeedPermissions)
    else if grants == [] then Some(PermissionsNeedGrants)
    else if Flatten(grants) != permissions then Some(NotTheFlattenedGrants)
    else None
  }

  /** The validator that options and decisions share. */
  function VerdictError(verdict: Verdict, permissions: Option<Permissions>, grants: seq<Grant>): Option<Error> {
    if verdict.Denied? then
      if permissions.Some? || grants != [] then Some(DeniedWithGrants) else None
    else GrantsError(permissions, grants)
  }

  predicate ValidChoice(c: Choice) {
    VerdictError(c.verdict, c.permissions, c.grants).None?
  }

  predicate ValidDecision(d: Decision) {
    VerdictError(d.verdict, d.permissions, d.grants).None?
  }

  predicate UniqueIds(options: seq<Choice>) {
    forall i, j :: 0 <= i < j < |options| ==> options[i].id != options[j].id
  }

  /** A request's own validator. It does not look at the option ids of a request
      that asks for no permissions. */
  function RequestError(r: Request): Option<Error> {
    if GrantsError(r.permissions, r.grants).Some? then GrantsError(r.permissions, r.grants)
    else if r.permissions.Some? && !UniqueIds(r.options) then Some(DuplicateOptionId)
    else None
  }

  predicate ValidRequest(r: Request) {
    && RequestError(r).None?
    && forall i :: 0 <= i < |r.options| ==> ValidChoice(r.options[i])
  }

  method ValidateRequest(r: Request) returns (error: Option<Error>)
    requires ValidGrants(r.grants)
    ensures error == RequestError(r)
  {
    hide Flatten;
    if r.permissions.None? && r.grants == [] {
      return None;
    }
    if r.permissions.None? {
      return Some(GrantsNeedPermissions);
    }
    if r.grants == [] {
      return Some(PermissionsNeedGrants);
    }
    var flat := FlattenPermissionGrants(r.grants);
    if flat != r.permissions {
      return Some(NotTheFlattenedGrants);
    }
    var ids: set<string> := {};
    for i := 0 to |r.options|
      invariant UniqueIds(r.options[..i])
      invariant forall id :: id in ids <==> exists k :: 0 <= k < i && r.options[k].id == id
    {
      if r.options[i].id in ids {
        var k :| 0 <= k < i && r.options[k].id == r.options[i].id;
        return Some(DuplicateOptionId);
      }
      ids := ids + {r.options[i].id};
    }
    assert r.options[..|r.options|] == r.options;
    error := None;
  }

  // ----- Normalizing a decision -----

  function FirstWithId(options: seq<Choice>, id: string): (c: Option<Choice>)
    ensures c.Some? ==> c.value in options && c.value.id == id
    ensures c.None? ==> forall o :: o in options ==> o.id != id
  {
    if options == [] then None
    else if options[0].id == id then Some(options[0])
    else FirstWithId(options[1..], id)
  }

  function FirstForGrants(options: seq<Choice>, permissions: Option<Permissions>, grants: seq<Grant>): (c: Option<Choice>)
    ensures c.Some? ==> c.value in options && c.value.verdict.Approved?
    ensures c.Some? ==> c.value.permissions == permissions && c.value.grants == grants
    ensures c.None? ==> forall o :: o in options && o.verdict.Approved? ==> o.permissions != permissions || o.grants != grants
  {
    if options == [] then None
    else if options[0].verdict.Approved? && options[0].permissions == permissions && options[0].grants == grants then
      Some(options[0])
    else FirstForGrants(options[1..], permissions, grants)
  }

  function DeniedOptions(options: seq<Choice>): (denied: seq<Choice>)
    ensures forall o :: o in denied <==> o in options && o.verdict.Denied?
  {
    if options == [] then []
    else (if options[0].verdict.Denied? then [options[0]] else []) + DeniedOptions(options[1..])
  }

  /** The option the decision stands for, if the request has options and one is
      meant. */
  function Selected(r: Request, d: Decision): Result<Option<Choice>, Error> {
    if r.options == [] then Ok(None)
    else if d.optionId.Some? then
      var c := FirstWithId(r.options, d.optionId.value);
      if c.None? then Err(UnknownOption)
      else if c.value.verdict != d.verdict then Err(OptionVerdictMismatch)
      else Ok(c)
    else if d.verdict.Denied? then
      var denied := DeniedOptions(r.options);
      Ok(if |denied| == 1 then Some(denied[0]) else None)
    else if d.permissions.Some? || d.grants != [] then
      var c := FirstForGrants(r.options, d.permissions, d.grants);
      if c.None? then Err(NoOptionForGrants) else Ok(c)
    else Ok(None)
  }

  /** Constructing a decision runs its validator. */
  function Construct(d: Decision): Result<Decision, Error> {
    var e := VerdictError(d.verdict, d.permissions, d.grants);
    if e.Some? then Err(e.value) else Ok(d)
  }

  function Normalize(r: Request, d: Decision): Result<Decision, Error> {
    if d.requestId != r.requestId then Err(OtherRequest)
    else
      var selected := Selected(r, d);
      if selected.Err? then Err(selected.error)
      else if selected.value.Some? then FromOption(d, selected.value.value)
      else WithoutOption(r, d)
  }

  function FromOption(d: Decision, c: Choice): Result<Decision, Error> {
    if c.verdict.Denied? then Construct(Decision(d.requestId, Denied, Some(c.id), None, []))
    else Construct(Decision(d.requestId, Approved, Some(c.id), c.permissions, c.grants))
  }

  function WithoutOption(r: Request, d: Decision): Result<Decision, Error> {
    if d.verdict.Denied? then Ok(d)
    else if r.permissions.None? then
      if d.permissions.Some? || d.grants != [] then Err(NothingWasRequested) else Ok(d)
    else if r.grants == [] then Err(PermissionsNeedGrants)
    else if d.permissions.None? && d.grants == [] then
      Construct(Decision(d.requestId, d.verdict, None, r.permissions, r.grants))
    else if d.permissions != r.permissions || d.grants != r.grants then Err(NotTheRequestedGrants)
    else Ok(d)
  }

  // ----- What is valid -----

  /** Nothing, or permissions that are exactly what some grants flatten to. */
  ghost predicate Summarizes(permissions: Option<Permissions>, grants: seq<Grant>) {
    if grants == [] then permissions.None? else permissions.Some? && permissions == Flatten(grants)
  }

  /** A request is valid exactly when its permissions summarize its grants, no
      two options of a request for permissions share an id, and each option
      denies and grants nothing or approves and summarizes its own grants. */
  lemma ValidRequestExact(r: Request)
    ensures ValidRequest(r)
       <==> && Summarizes(r.permissions, r.grants)
            && (r.permissions.Some? ==> forall i, j :: 0 <= i < j < |r.options| ==> r.options[i].id != r.options[j].id)
            && forall c :: c in r.options ==>
                 if c.verdict.Denied? then c.permissions.None? && c.grants == [] else Summarizes(c.permissions, c.grants)
  {
    hide Flatten;
    forall c | c in r.options
      ensures ValidChoice(c) <==> if c.verdict.Denied? then c.permissions.None? && c.grants == []
                                  else Summarizes(c.permissions, c.grants)
    {
    }
    assert (forall c :: c in r.options ==> ValidChoice(c)) <==> forall i :: 0 <= i < |r.options| ==> ValidChoice(r.options[i]);
  }

  lemma ValidDecisionExact(d: Decision)
    ensures ValidDecision(d)
       <==> if d.verdict.Denied? then d.permissions.None? && d.grants == [] else Summarizes(d.permissions, d.grants)
  {
    hide Flatten;
  }

  // ----- Which option is meant -----

  /** The option at `i` is the first one with the id. */
  ghost predicate FirstNamed(options: seq<Choice>, id: string, i: nat) {
    i < |options| && options[i].id == id && forall j :: 0 <= j < i ==> options[j].id != id
  }

  lemma {:induction false} FoundById(options: seq<Choice>, id: string, i: nat)
    requires FirstNamed(options, id, i)
    ensures FirstWithId(options, id) == Some(options[i])
  {
    if i > 0 {
      assert options[0].id != id;
      FoundById(options[1..], id, i - 1);
    }
  }

  predicate Offers(c: Choice, permissions: Option<Permissions>, grants: seq<Grant>) {
    c.verdict.Approved? && c.permissions == permissions && c.grants == grants
  }

  ghost predicate FirstOffering(options: seq<Choice>, permissions: Option<Permissions>, grants: seq<Grant>, i: nat) {
    i < |options| && Offers(options[i], permissions, grants)
    && forall j :: 0 <= j < i ==> !Offers(options[j], permissions, grants)
  }

  lemma {:induction false} FoundByGrants(options: seq<Choice>, permissions: Option<Permissions>, grants: seq<Grant>, i: nat)
    requires FirstOffering(options, permissions, grants, i)
    ensures FirstForGrants(options, permissions, grants) == Some(options[i])
  {
    if i > 0 {
      assert !Offers(options[0], permissions, grants);
      FoundByGrants(options[1..], permissions, grants, i - 1);
    }
  }

  /** The option at `i` is the only one that denies. */
  ghost predicate OnlyDenied(options: seq<Choice>, i: nat) {
    i < |options| && options[i].verdict.Denied?
    && forall j :: 0 <= j < |options| && j != i ==> !options[j].verdict.Denied?
  }

  lemma {:induction false} NoneDenied(options: seq<Choice>)
    requires forall j :: 0 <= j < |options| ==> !options[j].verdict.Denied?
    ensures DeniedOptions(options) == []
  {
    if options != [] {
      NoneDenied(options[1..]);
    }
  }

  lemma {:induction false} OneDenied(options: seq<Choice>, i: nat)
    requires OnlyDenied(options, i)
    ensures DeniedOptions(options) == [options[i]]
  {
    if i == 0 {
      NoneDenied(options[1..]);
    } else {
      assert !options[0].verdict.Denied?;
      OneDenied(options[1..], i - 1);
    }
  }

  lemma FirstDenied(options: seq<Choice>)
    requires options != [] && options[0].verdict.Denied? && DeniedOptions(options[1..]) == []
    ensures OnlyDenied(options, 0)
  {
    forall j | 0 < j < |options|
      ensures !options[j].verdict.Denied?
    {
      assert options[j] in options[1..];
    }
  }

  lemma DeniedLater(options: seq<Choice>, i: nat)
    requires options != [] && !options[0].verdict.Denied? && OnlyDenied(options[1..], i)
    ensures OnlyDenied(options, i + 1)
  {
    assert options[i + 1] == options[1..][i];
    assert forall j :: 0 < j < |options| ==> options[j] == options[1..][j - 1];
  }

  /** Where one denying option is found, no other denies. */
  lemma {:induction false} DeniedAlone(options: seq<Choice>)
    ensures |DeniedOptions(options)| == 1 ==> exists i: nat :: OnlyDenied(options, i)
  {
    hide OnlyDenied;
    if options != [] && |DeniedOptions(options)| == 1 {
      if options[0].verdict.Denied? {
        FirstDenied(options);
      } else {
        DeniedAlone(options[1..]);
        var i: nat :| OnlyDenied(options[1..], i);
        DeniedLater(options, i);
      }
    }
  }

  /** A denial that names no option stands for the one option that denies; with
      none or several of them it stands for no option and stays as it is. */
  lemma DenialExact(r: Request, d: Decision)
    requires ValidDecision(d) && d.requestId == r.requestId && d.verdict.Denied? && d.optionId.None?
    ensures forall i: nat :: OnlyDenied(r.options, i) ==> Normalize(r, d) == Ok(d.(optionId := Some(r.options[i].id)))
    ensures (forall i: nat :: !OnlyDenied(r.options, i)) ==> Normalize(r, d) == Ok(d)
  {
    hide Flatten, FirstWithId, FirstForGrants, DeniedOptions;
    forall i: nat | OnlyDenied(r.options, i)
      ensures Normalize(r, d) == Ok(d.(optionId := Some(r.options[i].id)))
    {
      OneDenied(r.options, i);
    }
    DeniedAlone(r.options);
  }

  /** An option id stands for the first option that has it: the decision takes
      over that option's grants if the verdicts agree, and is refused if not. */
  lemma NamedOptionExact(r: Request, d: Decision, i: nat)
    requires ValidRequest(r) && d.requestId == r.requestId
    requires d.optionId.Some? && FirstNamed(r.options, d.optionId.value, i)
    ensures Normalize(r, d)
         == if r.options[i].verdict == d.verdict then
              Ok(d.(permissions := r.options[i].permissions, grants := r.options[i].grants))
            else Err(OptionVerdictMismatch)
  {
    hide Flatten, FirstWithId, FirstForGrants, DeniedOptions;
    FoundById(r.options, d.optionId.value, i);
    assert ValidChoice(r.options[i]);
  }

  /** Grants without an option id stand for the first approved option that
      offers exactly them. */
  lemma GrantedOptionExact(r: Request, d: Decision, i: nat)
    requires ValidRequest(r) && ValidDecision(d) && d.requestId == r.requestId
    requires d.optionId.None? && d.permissions.Some? && FirstOffering(r.options, d.permissions, d.grants, i)
    ensures Normalize(r, d) == Ok(d.(optionId := Some(r.options[i].id)))
  {
    hide Flatten, FirstWithId, FirstForGrants, DeniedOptions;
    FoundByGrants(r.options, d.permissions, d.grants, i);
  }

  /** An approval that stands for no option grants what was requested: it is
      filled in, is that already, or is refused. */
  lemma ApprovalExact(r: Request, d: Decision)
    requires ValidRequest(r) && ValidDecision(d) && d.requestId == r.requestId && d.verdict.Approved?
    requires r.options == [] || (d.optionId.None? && d.permissions.None?)
    ensures Normalize(r, d)
         == if d.permissions == r.permissions && d.grants == r.grants then Ok(d)
            else if d.permissions.None? then Ok(Decision(r.requestId, Approved, None, r.permissions, r.grants))
            else Err(if r.permissions.None? then NothingWasRequested else NotTheRequestedGrants)
  {
    hide Flatten, FirstWithId, FirstForGrants, DeniedOptions;
  }

  // ----- Which decisions are accepted -----

  lemma SelectedIsOffered(r: Request, d: Decision)
    requires ValidRequest(r) && ValidDecision(d) && Selected(r, d).Ok? && Selected(r, d).value.Some?
    ensures var c := Selected(r, d).value.value; c in r.options && ValidChoice(c) && c.verdict == d.verdict
  {
  }

  /** Which decisions are accepted: an option id must lead to an option of the
      same verdict; without one, explicit grants must be exactly those of an
      approved option, or of the request when it has no options. */
  lemma NormalizeAccepts(r: Request, d: Decision)
    requires ValidRequest(r) && ValidDecision(d)
    ensures Normalize(r, d).Ok?
       <==> d.requestId == r.requestId
            && if r.options != [] && d.optionId.Some? then
                 exists c :: FirstWithId(r.options, d.optionId.value) == Some(c) && c.verdict == d.verdict
               else
                 d.permissions.None?
                 || (if r.options == [] then d.permissions == r.permissions && d.grants == r.grants
                     else exists c :: c in r.options && c.verdict.Approved? && c.permissions == d.permissions
                                      && c.grants == d.grants)
  {
    hide Flatten, FirstWithId, FirstForGrants, DeniedOptions;
    var selected := Selected(r, d);
    if selected.Ok? && selected.value.Some? {
      SelectedIsOffered(r, d);
      assert selected.value.value in r.options;
    }
  }

  /** A normalized decision answers the same request with the same verdict and
      is valid. It grants nothing, or what the request asked for, or what one of
      its approved options offers, and nothing else. */
  lemma NormalizedIsFaithful(r: Request, d: Decision, n: Decision)
    requires ValidRequest(r) && ValidDecision(d) && Normalize(r, d) == Ok(n)
    ensures n.requestId == r.requestId && n.verdict == d.verdict && ValidDecision(n)
    ensures || (n.permissions.None? && n.grants == [])
            || (n.permissions == r.permissions && n.grants == r.grants)
            || (exists c :: c in r.options && c.verdict.Approved? && n.optionId == Some(c.id)
                            && n.permissions == c.permissions && n.grants == c.grants)
  {
    hide Flatten;
    var selected := Selected(r, d);
    if selected.value.Some? {
      SelectedIsOffered(r, d);
      assert selected.value.value in r.options;
    }
  }

  /** Approving without options hands out exactly what was requested. */
  lemma ApprovalGrantsRequest(r: Request, d: Decision, n: Decision)
    requires ValidRequest(r) && ValidDecision(d) && Normalize(r, d) == Ok(n)
    requires r.options == [] && d.verdict.Approved?
    ensures n.permissions == r.permissions && n.grants == r.grants
  {
    hide Flatten;
  }

  /** The one call that is not settled: the request has options but the approval
      names none and no grants, and so gets the requested grants. */
  predicate GrantsFilledIn(r: Request, d: Decision) {
    && r.options != [] && d.optionId.None? && d.verdict.Approved?
    && d.permissions.None? && r.permissions.Some?
  }

  /** The selected option is the one its id leads to. */
  predicate IdLeadsBack(r: Request, d: Decision) {
    var s := Selected(r, d);
    s.Ok? && s.value.Some? ==>
      var back := FirstWithId(r.options, s.value.value.id);
      && back.Some? && back.value.verdict == s.value.value.verdict
      && back.value.permissions == s.value.value.permissions && back.value.grants == s.value.value.grants
  }

  lemma UniqueIdFound(options: seq<Choice>, c: Choice)
    requires UniqueIds(options) && c in options
    ensures FirstWithId(options, c.id) == Some(c)
  {
  }

  /** Normalizing again changes nothing exactly when no grants were filled in
      and the selected option's id leads back to it. */
  lemma NormalizeTwice(r: Request, d: Decision, n: Decision)
    requires ValidRequest(r) && ValidDecision(d) && Normalize(r, d) == Ok(n)
    ensures Normalize(r, n) == Ok(n) <==> !GrantsFilledIn(r, d) && IdLeadsBack(r, d)
  {
    hide Flatten, FirstWithId, FirstForGrants, DeniedOptions;
    var selected := Selected(r, d);
    if selected.value.Some? {
      SelectedIsOffered(r, d);
    }
  }

  /** With unique option ids only the filled-in grants are not settled, and they
      are after one more step that succeeds. */
  lemma NormalizeSettles(r: Request, d: Decision, n: Decision)
    requires ValidRequest(r) && UniqueIds(r.options) && ValidDecision(d) && Normalize(r, d) == Ok(n)
    ensures Normalize(r, n) == Ok(n) <==> !GrantsFilledIn(r, d)
    ensures Normalize(r, n).Ok? ==> Normalize(r, Normalize(r, n).value) == Normalize(r, n)
    ensures GrantsFilledIn(r, d) ==> (Normalize(r, n).Ok? <==> FirstForGrants(r.options, r.permissions, r.grants).Some?)
  {
    hide Flatten, FirstWithId, FirstForGrants, DeniedOptions;
    LeadsBack(r, d);
    NormalizeTwice(r, d, n);
    NormalizedIsFaithful(r, d, n);
    if Normalize(r, n).Ok? {
      LeadsBack(r, n);
      NormalizeTwice(r, n, Normalize(r, n).value);
    }
  }

  lemma LeadsBack(r: Request, d: Decision)
    requires ValidRequest(r) && UniqueIds(r.options) && ValidDecision(d)
    ensures IdLeadsBack(r, d)
  {
    hide Flatten, FirstWithId;
    var s := Selected(r, d);
    if s.Ok? && s.value.Some? {
      SelectedIsOffered(r, d);
      UniqueIdFound(r.options, s.value.value);
    }
  }

  /** A request without permissions may repeat an option id; then a denial can
      be normalized once and refused the second time. */
  lemma RepeatedIdRefusedTheSecondTime(id: string)
    ensures var r := Request("r", None, [], [Choice(id, Approved, None, []), Choice(id, Denied, None, [])]);
            var d := Decision("r", Denied, None, None, []);
            && ValidRequest(r) && ValidDecision(d)
            && Normalize(r, d) == Ok(d.(optionId := Some(id)))
            && Normalize(r, d.(optionId := Some(id))) == Err(OptionVerdictMismatch)
  {
    var approve, deny := Choice(id, Approved, None, []), Choice(id, Denied, None, []);
    var options := [approve, deny];
    assert options[1..] == [deny] && [deny][1..] == [];
    assert DeniedOptions([deny]) == [deny] + DeniedOptions([]);
    assert DeniedOptions(options) == [] + DeniedOptions([deny]);
  }
}
