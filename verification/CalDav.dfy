/** Conditional writes to a calendar server: read a resource, change it, write it back against
    the validator just read, while others may write between any two requests.
  */
module CalDav {
  import opened Prelude
  import opened Text

  /** A stored calendar entry, with the ETag the server gives for it ("" for none). */
  datatype Version = Version(body: string, etag: string)

  /** `usable_etag`: what may go into If-Match (RFC 9110 section 13.1.1), or "". */
  function UsableEtag(etag: string): string {
    var cleaned := Strip(etag);
    if cleaned == "" || (|cleaned| >= 2 && cleaned[0] in "Ww" && cleaned[1] == '/') then "" else cleaned
  }

  datatype Error =
    | ReadOnly
    | Unreachable
    | Redirected
    | LoginRejected
    | Conflict
    | Gone
    | Refused(status: int)
    | Unchangeable

  /** A status that does not say the request was carried out. */
  type Refusal = status: int | status != 200 && status != 201 && status != 204 witness 500

  /** What becomes of a request: served (a write gives the entry the ETag `etag`), answered
      with a status and nothing done, or cut off before or after it was served. */
  datatype Fate = Served(etag: string) | Answered(status: Refusal) | CutBefore | CutAfter(etag: string)

  /** What others do to the entry before a request is looked at, and its fate. */
  datatype Turn = Turn(others: seq<Option<Version>>, fate: Fate)

  /** A write of ours that took effect. */
  datatype Effect = Effect(replaced: Option<Version>, stored: Option<Version>)

  /** The precondition a write is sent with: none when there is no ETag to trust. */
  datatype Condition = Unconditional | IfMatch(etag: string) | IfAbsent {
    predicate Allows(now: Option<Version>) {
      match this
      case Unconditional => true
      case IfMatch(etag) => now.Some? && UsableEtag(now.value.etag) == etag
      case IfAbsent => now.None?
    }
  }

  function OnlyIf(etag: string): Condition {
    if etag == "" then Unconditional else IfMatch(etag)
  }

  /** `turns` decides for the requests to come; `history` is every version the entry has
      had, `writes` are those made by this client, `tries` counts its write requests. */
  datatype World = World(now: Option<Version>, turns: seq<Turn>, history: seq<Option<Version>>, writes: seq<Effect>, tries: nat) {

    function Next(): Turn {
      if turns == [] then Turn([], Served("")) else turns[0]
    }

    /** The others have written; the request is next. */
    function AfterOthers(): World {
      var others := Next().others;
      this.(now := if others == [] then now else others[|others| - 1],
            turns := if turns == [] then [] else turns[1..],
            history := history + others)
    }

    function Get(): (World, Result<Version, Error>) {
      var w := AfterOthers();
      match Next().fate
      case Served(_) => (w, if w.now.Some? then Ok(w.now.value) else Err(Gone))
      case Answered(status) => (w, Err(ErrorOf(status)))
      case _ => (w, Err(Unreachable))
    }

    /** A PUT or DELETE that the server carries out if `allowed` holds of what it has. */
    function Submit(condition: Condition, body: Option<string>): (World, Result<(), Error>) {
      var w := AfterOthers().(tries := tries + 1);
      match Next().fate
      case Served(etag) =>
        if body.None? && w.now.None? then (w, Err(Gone))
        else if !condition.Allows(w.now) then (w, Err(Conflict))
        else (w.Stored(body, etag), Ok(()))
      case Answered(status) => (w, Err(if 300 <= status < 400 then Redirected else ErrorOf(status)))
      case CutBefore => (w, Err(Unreachable))
      case CutAfter(etag) =>
        if (body.None? && w.now.None?) || !condition.Allows(w.now) then (w, Err(Unreachable)) else (w.Stored(body, etag), Err(Unreachable))
    }

    function Stored(body: Option<string>, etag: string): World {
      var next := if body.Some? then Some(Version(body.value, etag)) else None;
      this.(now := next, history := history + [next], writes := writes + [Effect(now, next)])
    }
  }

  /** `_request` on the status of an answer that did nothing; a 404 is an error whatever the
      caller expects. */
  function ErrorOf(status: Refusal): Error {
    if status == 401 || status == 403 then LoginRejected
    else if status == 412 then Conflict
    else if status == 404 then Gone
    else Refused(status)
  }

  // --- the operations ------------------------------------------------------------------------

  function Replace(w: World, body: string, etag: string): (World, Result<(), Error>) {
    w.Submit(OnlyIf(etag), Some(body))
  }

  function Remove(w: World, etag: string): (World, Result<(), Error>) {
    w.Submit(OnlyIf(etag), None)
  }

  function Create(w: World, readOnly: bool, body: string): (World, Result<(), Error>) {
    if readOnly then (w, Err(ReadOnly)) else w.Submit(IfAbsent, Some(body))
  }

  /** One round of an operation: over, or beaten to it by another write. */
  datatype Round = Over(r: Result<Version, Error>) | Beaten

  /** Read, transform, write against the validator just read. */
  function UpdateOnce(w: World, transform: string -> Option<string>): (World, Round) {
    var (w1, got) := w.Get();
    if got.Err? then (w1, Over(got))
    else
      var updated := transform(got.value.body);
      if updated.None? then (w1, Over(Err(Unchangeable)))
      else
        var (w2, put) := Replace(w1, updated.value, UsableEtag(got.value.etag));
        (w2, RoundOf(got, put))
  }

  function DeleteOnce(w: World): (World, Round) {
    var (w1, got) := w.Get();
    if got.Err? then (w1, Over(got))
    else
      var (w2, gone) := Remove(w1, UsableEtag(got.value.etag));
      (w2, RoundOf(got, gone))
  }

  function RoundOf(got: Result<Version, Error>, written: Result<(), Error>): Round {
    if written.Ok? then Over(got)
    else if written.error == Conflict then Beaten
    else Over(Err(written.error))
  }

  /** At most `left` rounds. */
  function Update(w: World, transform: string -> Option<string>, left: nat): (World, Result<Version, Error>)
    decreases left
  {
    if left == 0 then (w, Err(Conflict))
    else
      var (w1, round) := UpdateOnce(w, transform);
      if round.Beaten? then Update(w1, transform, left - 1) else (w1, round.r)
  }

  function Delete(w: World, left: nat): (World, Result<Version, Error>)
    decreases left
  {
    if left == 0 then (w, Err(Conflict))
    else
      var (w1, round) := DeleteOnce(w);
      if round.Beaten? then Delete(w1, left - 1) else (w1, round.r)
  }

  /** How the rounds go on once a round is known by its two requests. */
  lemma UpdateGoesOn(w: World, transform: string -> Option<string>, left: nat)
    ensures Update(w, transform, 0) == (w, Err(Conflict))
    ensures left > 0 ==>
              var (w1, got) := w.Get();
              if got.Err? then Update(w, transform, left) == (w1, got)
              else if transform(got.value.body).None? then Update(w, transform, left) == (w1, Err(Unchangeable))
              else
                var (w2, put) := Replace(w1, transform(got.value.body).value, UsableEtag(got.value.etag));
                if put.Ok? then Update(w, transform, left) == (w2, got)
                else if put.error != Conflict then Update(w, transform, left) == (w2, Err(put.error))
                else Update(w, transform, left) == Update(w2, transform, left - 1)
  {
    hide World.Get;
    hide World.Submit;
    hide UsableEtag;
  }

  lemma DeleteGoesOn(w: World, left: nat)
    ensures Delete(w, 0) == (w, Err(Conflict))
    ensures left > 0 ==>
              var (w1, got) := w.Get();
              if got.Err? then Delete(w, left) == (w1, got)
              else
                var (w2, gone) := Remove(w1, UsableEtag(got.value.etag));
                if gone.Ok? then Delete(w, left) == (w2, got)
                else if gone.error != Conflict then Delete(w, left) == (w2, Err(gone.error))
                else Delete(w, left) == Delete(w2, left - 1)
  {
    hide World.Get;
    hide World.Submit;
    hide UsableEtag;
  }

  /** An operation makes at least one attempt, whatever it is asked for. */
  function Attempts(attempts: int): (n: nat)
    ensures n >= 1 && n >= attempts
    ensures n == 1 || n == attempts
  {
    if attempts > 1 then attempts else 1
  }

  class CalDavClient {
    var world: World
    const readOnly: bool

    constructor (world: World, readOnly: bool)
      ensures this.world == world && this.readOnly == readOnly
    {
      this.world, this.readOnly := world, readOnly;
    }

    method Fetch() returns (r: Result<Version, Error>)
      modifies this
      ensures (world, r) == old(world).Get()
    {
      var got := world.Get();
      world, r := got.0, got.1;
    }

    method PutIfMatch(body: string, etag: string) returns (r: Result<(), Error>)
      modifies this
      ensures (world, r) == Replace(old(world), body, etag)
    {
      var put := Replace(world, body, etag);
      world, r := put.0, put.1;
    }

    method DeleteIfMatch(etag: string) returns (r: Result<(), Error>)
      modifies this
      ensures (world, r) == Remove(old(world), etag)
    {
      var gone := Remove(world, etag);
      world, r := gone.0, gone.1;
    }

    method UpdateResource(transform: string -> Option<string>, attempts: int) returns (r: Result<Version, Error>)
      modifies this
      ensures (world, r) == if readOnly then (old(world), Err(ReadOnly)) else Update(old(world), transform, Attempts(attempts))
    {
      hide *;
      if readOnly {
        return Err(ReadOnly);
      }
      var attempt, last := 0, Attempts(attempts);
      while attempt < last
        invariant 0 <= attempt <= last
        invariant Update(world, transform, last - attempt) == Update(old(world), transform, last)
      {
        UpdateGoesOn(world, transform, last - attempt);
        var current := Fetch();
        if current.Err? {
          return current;
        }
        var updated := transform(current.value.body);
        if updated.None? {
          return Err(Unchangeable);
        }
        var put := PutIfMatch(updated.value, UsableEtag(current.value.etag));
        if put.Ok? {
          return current;
        }
        if put.error != Conflict {
          return Err(put.error);
        }
        attempt := attempt + 1;
      }
      UpdateGoesOn(world, transform, 0);
      r := Err(Conflict);
    }

    method DeleteResource(attempts: int) returns (r: Result<Version, Error>)
      modifies this
      ensures (world, r) == if readOnly then (old(world), Err(ReadOnly)) else Delete(old(world), Attempts(attempts))
    {
      hide *;
      if readOnly {
        return Err(ReadOnly);
      }
      var attempt, last := 0, Attempts(attempts);
      while attempt < last
        invariant 0 <= attempt <= last
        invariant Delete(world, last - attempt) == Delete(old(world), last)
      {
        DeleteGoesOn(world, last - attempt);
        var current := Fetch();
        if current.Err? {
          return current;
        }
        var gone := DeleteIfMatch(UsableEtag(current.value.etag));
        if gone.Ok? {
          return current;
        }
        if gone.error != Conflict {
          return Err(gone.error);
        }
        attempt := attempt + 1;
      }
      DeleteGoesOn(world, 0);
      r := Err(Conflict);
    }
  }

  // --- no lost update ------------------------------------------------------------------------

  /** What a server owes (RFC 9110 section 8.8.1): two versions it gives the same strong ETag
      hold the same bytes. */
  ghost predicate StrongValidators(history: seq<Option<Version>>) {
    forall i, j :: 0 <= i < |history| && 0 <= j < |history| ==> Agree(history[i], history[j])
  }

  predicate Agree(v: Option<Version>, u: Option<Version>) {
    v.Some? && u.Some? && UsableEtag(v.value.etag) == UsableEtag(u.value.etag) != "" ==> v.value.body == u.value.body
  }

  /** Every version has an ETag to be conditional about. */
  ghost predicate AllTagged(history: seq<Option<Version>>) {
    forall i :: 0 <= i < |history| && history[i].Some? ==> UsableEtag(history[i].value.etag) != ""
  }

  /** The last version in the history is the one there is. */
  predicate Current(w: World) {
    |w.history| > 0 && w.history[|w.history| - 1] == w.now
  }

  /** `w1` came after `w`, with at most one write of ours and `rounds` tries. */
  predicate Later(w: World, w1: World, rounds: nat) {
    && w.history <= w1.history && Current(w1)
    && w.writes <= w1.writes && |w1.writes| <= |w.writes| + 1
    && w.tries <= w1.tries <= w.tries + rounds
  }

  predicate NoWrite(w: World, w1: World) {
    w1.writes == w.writes
  }

  predicate OneWrite(w: World, w1: World) {
    w1.writes == w.writes + [Last(w1)] && w1.now == Last(w1).stored
  }

  function Last(w: World): Effect {
    if w.writes == [] then Effect(None, None) else w.writes[|w.writes| - 1]
  }

  lemma AfterOthersKeeps(w: World)
    requires Current(w)
    ensures var w1 := w.AfterOthers();
            Current(w1) && w.history <= w1.history && w1.writes == w.writes && w1.tries == w.tries
  {
    var others := w.Next().others;
    if others != [] {
      assert (w.history + others)[|w.history + others| - 1] == others[|others| - 1];
    }
  }

  lemma GetReads(w: World)
    requires Current(w)
    ensures var (w1, got) := w.Get();
            && Current(w1) && w.history <= w1.history && w1.writes == w.writes && w1.tries == w.tries
            && (got.Ok? ==> w1.now == Some(got.value))
  {
    AfterOthersKeeps(w);
  }

  /** A write that has an effect replaces a version its condition allows. */
  lemma SubmitWrites(w: World, condition: Condition, body: Option<string>)
    requires Current(w)
    ensures var (w1, r) := w.Submit(condition, body);
            && Current(w1) && w.history <= w1.history && w1.tries == w.tries + 1
            && (NoWrite(w, w1) || (OneWrite(w, w1) && Allowed(w1, condition, body)))
            && (r.Ok? ==> OneWrite(w, w1))
            && (r.Err? && r.error != Unreachable ==> NoWrite(w, w1))
  {
    hide UsableEtag;
    hide World.Stored;
    hide World.AfterOthers;
    hide Stores;
    AfterOthersKeeps(w);
    var w0 := w.AfterOthers().(tries := w.tries + 1);
    assert Current(w0);
    match w.Next().fate {
      case Served(etag) => StoredKeeps(w0, body, etag);
      case CutAfter(etag) => StoredKeeps(w0, body, etag);
      case _ =>
    }
    hide Current;
    hide Last;
  }

  lemma StoredKeeps(w: World, body: Option<string>, etag: string)
    requires Current(w)
    ensures var w1 := w.Stored(body, etag);
            && Current(w1) && w.history <= w1.history && w1.tries == w.tries
            && OneWrite(w, w1) && |w1.history| >= 2 && w1.history[|w1.history| - 2] == w.now
            && Last(w1).replaced == w.now && Stores(Last(w1), body)
  {
    var w1 := w.Stored(body, etag);
    assert w1.history[|w1.history| - 2] == w.history[|w.history| - 1];
  }

  /** The last write replaced a version, itself in the history, that `condition` allows. */
  predicate Allowed(w: World, condition: Condition, body: Option<string>) {
    var e := Last(w);
    && |w.history| >= 2 && w.history[|w.history| - 2] == e.replaced
    && condition.Allows(e.replaced)
    && (body.None? ==> e.replaced.Some?)
    && Stores(e, body)
  }

  /** The version replaced is the version read. */
  lemma SameVersion(w: World, read: Version, at: nat, body: Option<string>)
    requires Allowed(w, OnlyIf(UsableEtag(read.etag)), body) && UsableEtag(read.etag) != ""
    requires at < |w.history| && w.history[at] == Some(read) && StrongValidators(w.history)
    ensures Last(w).replaced.Some? && Last(w).replaced.value.body == read.body
  {
    hide UsableEtag;
    assert Agree(w.history[|w.history| - 2], w.history[at]);
  }

  /** A write against the version just read, whose ETag can be trusted, replaces that version. */
  ghost predicate ReplacesRead(w1: World, read: Version, body: Option<string>) {
    StrongValidators(w1.history) && UsableEtag(read.etag) != "" ==>
      && Last(w1).replaced.Some? && Last(w1).replaced.value.body == read.body
      && Stores(Last(w1), body)
  }

  predicate Stores(e: Effect, body: Option<string>) {
    if body.None? then e.stored.None? else e.stored.Some? && e.stored.value.body == body.value
  }

  lemma WriteAgainstRead(w: World, read: Version, body: Option<string>)
    requires Current(w) && w.now == Some(read)
    ensures var (w1, r) := w.Submit(OnlyIf(UsableEtag(read.etag)), body);
            !NoWrite(w, w1) ==> ReplacesRead(w1, read, body)
  {
    SubmitWrites(w, OnlyIf(UsableEtag(read.etag)), body);
    var (w1, r) := w.Submit(OnlyIf(UsableEtag(read.etag)), body);
    hide World.Submit;
    hide UsableEtag;
    var at := |w.history| - 1;
    assert w1.history[at] == Some(read);
    if !NoWrite(w, w1) && UsableEtag(read.etag) != "" && StrongValidators(w1.history) {
      SameVersion(w1, read, at, body);
    }
    hide StrongValidators;
  }

  /** What an operation does to a version: rewrite its bytes, or remove it. */
  datatype Change = Rewrite(transform: string -> Option<string>) | Removal {
    predicate Made(e: Effect) {
      e.replaced.Some? &&
      match this
      case Rewrite(transform) => e.stored.Some? && transform(e.replaced.value.body) == Some(e.stored.value.body)
      case Removal => e.stored.None?
    }
  }

  /** What one operation may have done to the entry, and what its result says: at most one
      write, none if it failed other than by being cut off, one if it succeeded; and a write
      against a strong ETag is the change applied to the very version that was read. */
  ghost predicate Sound(w: World, w1: World, rounds: nat, r: Result<Version, Error>, change: Change) {
    && Later(w, w1, rounds)
    && (r.Err? && r.error != Unreachable ==> NoWrite(w, w1))
    && (r.Ok? ==> OneWrite(w, w1))
    && (StrongValidators(w1.history) ==> Faithful(w, w1, r, change))
  }

  ghost predicate Faithful(w: World, w1: World, r: Result<Version, Error>, change: Change) {
    && (r.Ok? && UsableEtag(r.value.etag) != "" ==>
          change.Made(Last(w1)) && Last(w1).replaced.value.body == r.value.body)
    && (AllTagged(w1.history) && !NoWrite(w, w1) ==> change.Made(Last(w1)))
  }

  /** A round that has read the entry, and then writes. */
  lemma RoundSound(w: World, w1: World, read: Version, body: Option<string>, change: Change)
    requires Current(w1) && w.history <= w1.history && w1.writes == w.writes && w1.tries == w.tries
    requires w1.now == Some(read)
    requires match change case Rewrite(t) => t(read.body) == body && body.Some? case Removal => body.None?
    ensures var (w2, put) := w1.Submit(OnlyIf(UsableEtag(read.etag)), body);
            var round := RoundOf(Ok(read), put);
            if round.Beaten? then NoWrite(w, w2) && Later(w, w2, 1)
            else Sound(w, w2, 1, round.r, change)
  {
    SubmitWrites(w1, OnlyIf(UsableEtag(read.etag)), body);
    WriteAgainstRead(w1, read, body);
    var (w2, put) := w1.Submit(OnlyIf(UsableEtag(read.etag)), body);
    TaggedRead(w1, w2, read);
    hide World.Submit;
    hide UsableEtag;
    hide StrongValidators;
    hide AllTagged;
    hide Allowed;
    assert Later(w, w2, 1);
    assert NoWrite(w1, w2) == NoWrite(w, w2) && OneWrite(w1, w2) == OneWrite(w, w2);
    hide Later;
    hide NoWrite;
    hide OneWrite;
    hide Current;
    hide Last;
  }

  lemma TaggedRead(w1: World, w2: World, read: Version)
    requires Current(w1) && w1.now == Some(read) && w1.history <= w2.history
    ensures AllTagged(w2.history) ==> UsableEtag(read.etag) != ""
  {
    assert w2.history[|w1.history| - 1] == Some(read);
    hide UsableEtag;
  }

  lemma UpdateOnceSound(w: World, transform: string -> Option<string>)
    requires Current(w)
    ensures var (w1, round) := UpdateOnce(w, transform);
            if round.Beaten? then NoWrite(w, w1) && Later(w, w1, 1)
            else Sound(w, w1, 1, round.r, Rewrite(transform))
  {
    GetReads(w);
    var (w1, got) := w.Get();
    if got.Ok? && transform(got.value.body).Some? {
      RoundSound(w, w1, got.value, transform(got.value.body), Rewrite(transform));
    } else {
      hide StrongValidators;
      hide AllTagged;
    }
    hide World.Submit;
    hide World.Get;
    hide UsableEtag;
  }

  lemma DeleteOnceSound(w: World)
    requires Current(w)
    ensures var (w1, round) := DeleteOnce(w);
            if round.Beaten? then NoWrite(w, w1) && Later(w, w1, 1)
            else Sound(w, w1, 1, round.r, Removal)
  {
    GetReads(w);
    var (w1, got) := w.Get();
    if got.Ok? {
      RoundSound(w, w1, got.value, None, Removal);
    } else {
      hide StrongValidators;
      hide AllTagged;
    }
    hide World.Submit;
    hide World.Get;
    hide UsableEtag;
  }

  lemma RoundsAdd(w: World, w1: World, w2: World, left: nat, r: Result<Version, Error>, change: Change)
    requires NoWrite(w, w1) && Later(w, w1, 1) && Sound(w1, w2, left, r, change)
    ensures Sound(w, w2, left + 1, r, change)
  {
    hide StrongValidators;
    hide AllTagged;
    hide UsableEtag;
    hide Last;
  }

  /** `update_resource` with others writing between any two requests: at most `left` tries and
      one effective write; a success against a strong ETag has stored the change applied to
      the very version it replaced, which is the version returned. */
  lemma {:induction false} UpdateSafety(w: World, transform: string -> Option<string>, left: nat)
    requires Current(w)
    ensures var (w1, r) := Update(w, transform, left);
            Sound(w, w1, left, r, Rewrite(transform))
    decreases left
  {
    hide StrongValidators;
    hide AllTagged;
    hide UsableEtag;
    hide UpdateOnce;
    if left > 0 {
      UpdateOnceSound(w, transform);
      var (w1, round) := UpdateOnce(w, transform);
      if round.Beaten? {
        UpdateSafety(w1, transform, left - 1);
        var (w2, r) := Update(w1, transform, left - 1);
        RoundsAdd(w, w1, w2, left - 1, r, Rewrite(transform));
      }
    }
  }

  /** `delete_resource`, likewise: what it removes is the version it read. */
  lemma {:induction false} DeleteSafety(w: World, left: nat)
    requires Current(w)
    ensures var (w1, r) := Delete(w, left);
            Sound(w, w1, left, r, Removal)
    decreases left
  {
    hide StrongValidators;
    hide AllTagged;
    hide UsableEtag;
    hide DeleteOnce;
    if left > 0 {
      DeleteOnceSound(w);
      var (w1, round) := DeleteOnce(w);
      if round.Beaten? {
        DeleteSafety(w1, left - 1);
        var (w2, r) := Delete(w1, left - 1);
        RoundsAdd(w, w1, w2, left - 1, r, Removal);
      }
    }
  }

  /** `create` never writes over an entry. */
  lemma CreateSafety(w: World, readOnly: bool, body: string)
    requires Current(w)
    ensures var (w1, r) := Create(w, readOnly, body);
            && Current(w1) && w.history <= w1.history
            && (NoWrite(w, w1) || (OneWrite(w, w1) && Last(w1).replaced.None? && Stores(Last(w1), Some(body))))
            && (r.Ok? ==> OneWrite(w, w1))
  {
    hide World.Submit;
    if !readOnly {
      SubmitWrites(w, IfAbsent, Some(body));
    }
  }

  // --- an entry that is gone -------------------------------------------------------------------

  /** Deleting an entry that is gone is an error, though the caller names 404 among the
      statuses it expects: it is reported exactly when the server finds no entry, or says so. */
  lemma RemoveGoneIff(w: World, etag: string)
    ensures var (w1, r) := Remove(w, etag);
            && (r == Err(Gone) <==> (w.Next().fate.Served? && w.AfterOthers().now.None?) || w.Next().fate == Answered(404))
            && (r == Err(Gone) ==> NoWrite(w, w1) && w1.now == w.AfterOthers().now)
  {
    hide UsableEtag;
  }

  /** Another client deletes the entry between the read and the DELETE. */
  function Forestalled(v: Version): World {
    World(Some(v), [Turn([], Served("")), Turn([None], Served(""))], [Some(v)], [], 0)
  }

  /** The entry is gone as the caller wanted, and the caller is told it failed. */
  lemma ForestalledFails(v: Version, left: nat)
    requires left > 0
    ensures var (w1, r) := Delete(Forestalled(v), left);
            r == Err(Gone) && w1.now.None? && w1.writes == []
  {
    hide UsableEtag;
    var w := Forestalled(v);
    var w1 := World(Some(v), [Turn([None], Served(""))], [Some(v)], [], 0);
    assert w.history + [] == w.history && w.turns[1..] == w1.turns;
    assert w.Get() == (w1, Ok(v));
    RemoveGoneIff(w1, UsableEtag(v.etag));
    assert DeleteOnce(w).1 == Over(Err(Gone));
    hide World.Submit;
  }

  // --- exactly when the version written over is the version read ------------------------------

  ghost predicate FreshAfter(w: World, left: nat, v: Version, transform: string -> Option<string>) {
    var (w1, r) := Update(w, transform, left);
    Current(w) && r == Ok(v) && StrongValidators(w1.history) ==>
      Last(w1).replaced.Some? && Last(w1).replaced.value.body == v.body
  }

  /** However others interleave, an update that read `v` replaced `v`. */
  ghost predicate AlwaysFresh(v: Version, transform: string -> Option<string>) {
    forall w: World, left: nat :: FreshAfter(w, left, v, transform)
  }

  /** One other write between the read and the unconditional write. */
  function Overtaken(v: Version): World {
    World(Some(v), [Turn([], Served("")), Turn([Some(Version(v.body + "x", ""))], Served(""))], [Some(v)], [], 0)
  }

  lemma NoEtag()
    ensures UsableEtag("") == ""
  {
    StripTrims("");
  }

  lemma OvertakenLoses(v: Version, transform: string -> Option<string>)
    requires UsableEtag(v.etag) == "" && transform(v.body).Some?
    ensures !FreshAfter(Overtaken(v), 1, v, transform)
  {
    hide UsableEtag;
    hide StrongValidators;
    NoEtag();
    var other := Version(v.body + "x", "");
    var w := Overtaken(v);
    var w1 := World(Some(v), [Turn([Some(other)], Served(""))], [Some(v)], [], 0);
    assert w.history + [] == w.history;
    assert w.Get() == (w1, Ok(v));
    var stored := Version(transform(v.body).value, "");
    var w2 := World(Some(stored), [], [Some(v), Some(other), Some(stored)], [Effect(Some(other), Some(stored))], 1);
    assert w1.turns == w.turns[1..];
    assert w1.AfterOthers() == World(Some(other), [], [Some(v), Some(other)], [], 0) by {
      assert [Some(v)] + [Some(other)] == [Some(v), Some(other)];
    }
    assert World(Some(other), [], [Some(v), Some(other)], [], 1).Stored(Some(stored.body), "") == w2 by {
      assert [Some(v), Some(other)] + [Some(stored)] == w2.history;
      assert [] + [Effect(Some(other), Some(stored))] == w2.writes;
    }
    assert w1.Next() == Turn([Some(other)], Served(""));
    assert Replace(w1, stored.body, "") == (w2, Ok(()));
    assert UpdateOnce(w, transform) == (w2, Over(Ok(v)));
    assert Update(w, transform, 1) == (w2, Ok(v));
    NoTagsAgree(w2.history);
    assert other.body != v.body;
  }

  lemma NoTagsAgree(history: seq<Option<Version>>)
    requires forall i :: 0 <= i < |history| && history[i].Some? ==> UsableEtag(history[i].value.etag) == ""
    ensures StrongValidators(history)
  {
    hide UsableEtag;
  }

  /** No update is lost exactly when the version read came with an ETag that may be used. */
  lemma FreshIff(v: Version, transform: string -> Option<string>)
    requires transform(v.body).Some?
    ensures AlwaysFresh(v, transform) <==> UsableEtag(v.etag) != ""
  {
    hide UsableEtag;
    hide StrongValidators;
    hide AllTagged;
    hide Update;
    if UsableEtag(v.etag) != "" {
      forall w: World, left: nat
        ensures FreshAfter(w, left, v, transform)
      {
        if Current(w) {
          UpdateSafety(w, transform, left);
        }
      }
    } else {
      OvertakenLoses(v, transform);
      hide FreshAfter;
    }
  }

  // --- races, and how they end ----------------------------------------------------------------

  /** Nobody comes between reading and writing: the entry is there, its bytes can be changed,
      and both requests are served. */
  predicate Undisturbed(w: World, transform: string -> Option<string>) {
    var (w1, got) := w.Get();
    && got.Ok? && transform(got.value.body).Some?
    && w1.Next().others == [] && w1.Next().fate.Served?
  }

  lemma UndisturbedWrites(w: World, transform: string -> Option<string>)
    requires Undisturbed(w, transform)
    ensures var (w1, got) := w.Get();
            var (w2, round) := UpdateOnce(w, transform);
            && round == Over(got)
            && w2.now == Some(Version(transform(got.value.body).value, w1.Next().fate.etag))
  {
    hide UsableEtag;
    var (w1, got) := w.Get();
    assert w1.AfterOthers().now == w1.now == Some(got.value);
  }

  /** The world after `k` rounds that were all beaten, if they were. */
  function AfterRaces(w: World, transform: string -> Option<string>, k: nat): Option<World>
    decreases k
  {
    if k == 0 then Some(w)
    else
      var (w1, round) := UpdateOnce(w, transform);
      if round.Beaten? then AfterRaces(w1, transform, k - 1) else None
  }

  /** However many races are lost, if fewer than the attempts, the first round nobody disturbs
      puts the change on top of what the others have written. */
  lemma {:induction false} RacesReplayed(w: World, transform: string -> Option<string>, left: nat, k: nat)
    requires k < left && AfterRaces(w, transform, k).Some?
    requires Undisturbed(AfterRaces(w, transform, k).value, transform)
    ensures var (w1, got) := AfterRaces(w, transform, k).value.Get();
            var (w2, r) := Update(w, transform, left);
            && r == got
            && w2.now == Some(Version(transform(got.value.body).value, w1.Next().fate.etag))
    decreases k
  {
    hide UpdateOnce;
    hide Update;
    hide World.Get;
    UpdateRound(w, transform, left);
    if k == 0 {
      UndisturbedWrites(w, transform);
    } else {
      RacesReplayed(UpdateOnce(w, transform).0, transform, left - 1, k - 1);
    }
  }

  /** A round is only ever beaten by another's write in between, or a server that says so. */
  lemma BeatenMeansRace(w: World, transform: string -> Option<string>)
    requires UpdateOnce(w, transform).1.Beaten?
    ensures var w1 := w.Get().0;
            w1.Next().others != [] || w1.Next().fate == Answered(412)
  {
    hide UsableEtag;
    var (w1, got) := w.Get();
    if w1.Next().others == [] {
      assert w1.AfterOthers().now == w1.now;
    }
  }

  /** Beaten in every attempt, the operation gives up with a conflict, having asked to write as
      often as it may. */
  lemma {:induction false} RacesLost(w: World, transform: string -> Option<string>, left: nat)
    requires AfterRaces(w, transform, left).Some?
    ensures var (w1, r) := Update(w, transform, left);
            r == Err(Conflict) && w1 == AfterRaces(w, transform, left).value && w1.tries == w.tries + left
    decreases left
  {
    hide UpdateOnce;
    if left > 0 {
      BeatenTries(w, transform);
      RacesLost(UpdateOnce(w, transform).0, transform, left - 1);
    }
  }

  lemma BeatenTries(w: World, transform: string -> Option<string>)
    requires UpdateOnce(w, transform).1.Beaten?
    ensures UpdateOnce(w, transform).0.tries == w.tries + 1
  {
    hide UsableEtag;
  }

  /** Nobody comes between reading and deleting. */
  predicate UndisturbedDelete(w: World) {
    var (w1, got) := w.Get();
    got.Ok? && w1.Next().others == [] && w1.Next().fate.Served?
  }

  function AfterDeleteRaces(w: World, k: nat): Option<World>
    decreases k
  {
    if k == 0 then Some(w)
    else
      var (w1, round) := DeleteOnce(w);
      if round.Beaten? then AfterDeleteRaces(w1, k - 1) else None
  }

  lemma UndisturbedDeletes(w: World)
    requires UndisturbedDelete(w)
    ensures DeleteOnce(w).1 == Over(w.Get().1) && DeleteOnce(w).0.now == None
  {
    hide UsableEtag;
    var (w1, got) := w.Get();
    assert w1.AfterOthers().now == w1.now == Some(got.value);
  }

  /** The first round that nobody disturbs removes the entry, if there are attempts left. */
  lemma {:induction false} DeleteReplayed(w: World, left: nat, k: nat)
    requires k < left && AfterDeleteRaces(w, k).Some? && UndisturbedDelete(AfterDeleteRaces(w, k).value)
    ensures var (w1, r) := Delete(w, left);
            r == AfterDeleteRaces(w, k).value.Get().1 && w1.now == None
    decreases k
  {
    hide DeleteOnce, World.Get;
    if k == 0 {
      UndisturbedDeletes(w);
    } else {
      DeleteReplayed(DeleteOnce(w).0, left - 1, k - 1);
    }
  }

  /** A creation succeeds exactly when it is served and nothing is there; a conflict is
      reported exactly when something is, or the server says so. */
  lemma CreatedIff(w: World, readOnly: bool, body: string)
    ensures var (w1, r) := Create(w, readOnly, body);
            var fate, there := w.Next().fate, w.AfterOthers().now;
            && (readOnly <==> r == Err(ReadOnly))
            && (readOnly ==> w1 == w)
            && (r.Ok? <==> !readOnly && fate.Served? && there.None?)
            && (r.Ok? ==> w1.now == Some(Version(body, fate.etag)))
            && (r == Err(Conflict) <==> !readOnly && ((fate.Served? && there.Some?) || fate == Answered(412)))
  {
  }

  // --- what goes wrong and what is told ---------------------------------------------------------

  /** What a failed read is reported as, by its cause. */
  lemma ReadFails(w: World)
    ensures var r, fate := w.Get().1, w.Next().fate;
            && (r.Ok? <==> fate.Served? && w.AfterOthers().now.Some?)
            && (r == Err(Unreachable) <==> fate.CutBefore? || fate.CutAfter?)
            && (r == Err(LoginRejected) <==> fate == Answered(401) || fate == Answered(403))
            && (r == Err(Gone) <==> (fate.Served? && w.AfterOthers().now.None?) || fate == Answered(404))
            && (r == Err(Conflict) <==> fate == Answered(412))
            && (r.Err? ==> r.error != ReadOnly && r.error != Redirected && r.error != Unchangeable)
            && (r.Err? && r.error.Refused? ==> fate == Answered(r.error.status))
  {
  }

  /** What a failed write is reported as, by its cause. */
  lemma WriteFails(w: World, condition: Condition, body: Option<string>)
    ensures var (w1, r) := w.Submit(condition, body);
            var fate, there := w.Next().fate, w.AfterOthers().now;
            && (r.Ok? <==> fate.Served? && condition.Allows(there) && (body.Some? || there.Some?))
            && (r == Err(Unreachable) <==> fate.CutBefore? || fate.CutAfter?)
            && (r == Err(Redirected) <==> fate.Answered? && 300 <= fate.status < 400)
            && (r == Err(LoginRejected) <==> fate == Answered(401) || fate == Answered(403))
            && (r == Err(Conflict) <==>
                  (fate.Served? && !condition.Allows(there) && (body.Some? || there.Some?)) || fate == Answered(412))
            && (r.Err? && r.error.Refused? ==> fate == Answered(r.error.status))
            && (fate.CutBefore? || fate.Answered? ==> w1.now == there)
  {
    hide UsableEtag;
  }

  lemma UpdateRound(w: World, transform: string -> Option<string>, left: nat)
    requires left > 0
    ensures var (w1, round) := UpdateOnce(w, transform);
            Update(w, transform, left) == if round.Beaten? then Update(w1, transform, left - 1) else (w1, round.r)
  {
    hide UpdateOnce;
  }

  // --- the validator itself -----------------------------------------------------------------

  predicate Weak(tag: string) {
    |tag| >= 2 && (tag[0] == 'W' || tag[0] == 'w') && tag[1] == '/'
  }

  /** White space around the header is no part of the ETag; nothing is left of a weak one. */
  lemma UsableEtagIs(before: string, tag: string, after: string)
    requires AllSpace(before) && AllSpace(after) && Trimmed(tag)
    ensures UsableEtag(before + tag + after) == if Weak(tag) then "" else tag
    ensures UsableEtag(UsableEtag(before + tag + after)) == UsableEtag(before + tag + after)
  {
    hide AllSpace;
    hide Trimmed;
    hide Strip;
    StripPadded(before, tag, after);
    StripTrims(tag);
    assert UsableEtag("") == "" by { NoEtag(); }
  }
}
