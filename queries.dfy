/** The data hooks: the enable rules of the queries, the create-item call
    sequence, and how backend failures are turned into user messages. */
module Queries {
  import opened Wrappers
  import opened Backend
  import opened Text

  // ---------------------------------------------------------------- queries

  /** The caller-profile query runs with an actor that is not being fetched. */
  predicate CallerProfileEnabled(hasActor: bool, actorFetching: bool) {
    hasActor && !actorFetching
  }

  /** The flags the caller-profile hook reports over those of its query. */
  datatype ProfileFlags = ProfileFlags(isLoading: bool, isFetched: bool)

  function CallerProfileFlags(hasActor: bool, actorFetching: bool, queryLoading: bool, queryFetched: bool): ProfileFlags {
    ProfileFlags(actorFetching || queryLoading, hasActor && queryFetched)
  }

  /** While the actor is being fetched the hook reports loading whatever its
      query says, and it never reports a fetched profile without an actor. */
  lemma CallerProfileFlagsSound(hasActor: bool, actorFetching: bool, queryLoading: bool, queryFetched: bool)
    ensures var f := CallerProfileFlags(hasActor, actorFetching, queryLoading, queryFetched);
            (actorFetching ==> f.isLoading) && (f.isFetched ==> hasActor && queryFetched)
            && (!actorFetching && hasActor ==> f == ProfileFlags(queryLoading, queryFetched))
  {
  }

  /** The caller-profile query function refuses to run without an actor. */
  function CallerProfileGuard(hasActor: bool): Option<Thrown> {
    if hasActor then None else Some(Error("Actor not available"))
  }

  /** A JavaScript string argument is truthy when present and non-empty. */
  predicate Truthy(s: Option<string>) {
    s.Some? && s.value != ""
  }

  /** `enabled` of the item, artist-profile and NFT-owner queries. */
  predicate ByIdEnabled(hasActor: bool, actorFetching: bool, id: Option<string>) {
    hasActor && !actorFetching && Truthy(id)
  }

  /** The guard at the top of those query functions. */
  function ByIdGuard(hasActor: bool, id: Option<string>, what: string): Option<Thrown> {
    if !hasActor || !Truthy(id) then Some(Error("Actor or " + what + " not available")) else None
  }

  /** An enabled query never trips its own guard, and a guard that passes
      while the actor is settled means the query was enabled. */
  lemma EnabledQueriesPassGuard(hasActor: bool, actorFetching: bool, id: Option<string>, what: string)
    ensures ByIdEnabled(hasActor, actorFetching, id) <==> !actorFetching && ByIdGuard(hasActor, id, what) == None
    ensures CallerProfileEnabled(hasActor, actorFetching) ==> CallerProfileGuard(hasActor) == None
  {
  }

  // ------------------------------------------------------------ create item

  datatype CreateItemParams = CreateItemParams(
    title: string, description: string, price: int, itemType: ItemType, blob: seq<byte>)

  const PermissionMessage: string := "You do not have permission to create items"
  const NetworkMessage: string := "Network error. Please check your connection and try again"

  /** The create-item catch block: case-sensitive, "Unauthorized" first, then
      "network"; anything else is re-thrown as it was. */
  function TranslateCreateItemError(t: Thrown): (r: Thrown) {
    if t.Error? && Includes(t.message, "Unauthorized") then Error(PermissionMessage)
    else if t.Error? && Includes(t.message, "network") then Error(NetworkMessage)
    else t
  }

  /** "Unauthorized" wins over "network", a message with neither is
      re-thrown unchanged, and a thrown value that is not an `Error` is
      always re-thrown unchanged. */
  lemma CreateItemTranslationPrecedence(t: Thrown)
    ensures t.Error? && Contains(t.message, "Unauthorized") ==> TranslateCreateItemError(t) == Error(PermissionMessage)
    ensures (t.Error? && !Contains(t.message, "Unauthorized") && Contains(t.message, "network"))
            ==> TranslateCreateItemError(t) == Error(NetworkMessage)
    ensures !(t.Error? && (Contains(t.message, "Unauthorized") || Contains(t.message, "network")))
            ==> TranslateCreateItemError(t) == t
  {
  }

  /** The tests are case-sensitive: lower-case "unauthorized" is re-thrown
      untouched, while "Unauthorized" wins over "network". */
  lemma CreateItemTranslationCases()
    ensures TranslateCreateItemError(Error("unauthorized")) == Error("unauthorized")
    ensures TranslateCreateItemError(Error("Unauthorized network")) == Error(PermissionMessage)
  {
    assert OccursAt("Unauthorized network", "Unauthorized", 0);
    MissingCharNotContained("unauthorized", "Unauthorized", 0);
    MissingCharNotContained("unauthorized", "network", 3);
  }

  /** What one create-item mutation does: its result and the backend calls it
      made, in order. */
  datatype CreateRun = CreateRun(result: Result<string, Thrown>, calls: seq<Call>)

  /** The mutation function with an actor: `createItem`, then `saveItemImage`
      with the returned id, then `createNft` for NFT items; the first
      rejection ends the sequence and is translated. */
  function CreateItemRun(respond: (seq<Call>, Call) -> Reply, log: seq<Call>, p: CreateItemParams): CreateRun {
    var c1 := CreateItem(p.title, p.description, p.price, p.itemType);
    match respond(log, c1)
    case Rejected(t) => CreateRun(Err(TranslateCreateItemError(t)), [c1])
    case Resolved(id) =>
      var c2 := SaveItemImage(id, p.blob);
      match respond(log + [c1], c2)
      case Rejected(t) => CreateRun(Err(TranslateCreateItemError(t)), [c1, c2])
      case Resolved(_) =>
        if p.itemType != Nft then CreateRun(Ok(id), [c1, c2])
        else
          var c3 := CreateNft(id);
          match respond(log + [c1, c2], c3)
          case Rejected(t) => CreateRun(Err(TranslateCreateItemError(t)), [c1, c2, c3])
          case Resolved(_) => CreateRun(Ok(id), [c1, c2, c3])
  }

  /** The mutation function as a whole: without an actor it throws
      "Actor not available" and makes no call. */
  function CreateItemOutcome(hasActor: bool, respond: (seq<Call>, Call) -> Reply, log: seq<Call>, p: CreateItemParams): CreateRun {
    if hasActor then CreateItemRun(respond, log, p) else CreateRun(Err(Error("Actor not available")), [])
  }

  /** The id a resolved `createItem` reply carries. */
  function IdOf(r: Reply): string {
    if r.Resolved? then r.value else ""
  }

  /** The calls a fully successful run makes for an item whose `createItem` returned `id`. */
  function FullSequence(p: CreateItemParams, id: string): seq<Call> {
    [CreateItem(p.title, p.description, p.price, p.itemType), SaveItemImage(id, p.blob)]
    + (if p.itemType == Nft then [CreateNft(id)] else [])
  }

  /** The create-item sequence: the calls made are a non-empty prefix of the
      full sequence keyed by the id `createItem` returned; every call but the
      last was answered; the run succeeds exactly when the last call was
      answered, and then it made every call and returns that id; otherwise
      the last call's rejection, translated, is the error. */
  lemma CreateItemSequence(respond: (seq<Call>, Call) -> Reply, log: seq<Call>, p: CreateItemParams)
    ensures var run, first := CreateItemRun(respond, log, p), CreateItem(p.title, p.description, p.price, p.itemType);
            var id, n := IdOf(respond(log, first)), |run.calls|;
            1 <= n <= |FullSequence(p, id)| && run.calls == FullSequence(p, id)[..n]
            && (forall k :: 0 <= k < n - 1 ==> respond(log + run.calls[..k], run.calls[k]).Resolved?)
            && (run.result.Ok? <==> respond(log + run.calls[..n - 1], run.calls[n - 1]).Resolved?)
            && (run.result.Ok? ==> n == |FullSequence(p, id)| && run.result.value == id)
            && (run.result.Err? ==>
                  run.result.error == TranslateCreateItemError(respond(log + run.calls[..n - 1], run.calls[n - 1]).reason))
  {
    var c1 := CreateItem(p.title, p.description, p.price, p.itemType);
    var run := CreateItemRun(respond, log, p);
    var id := IdOf(respond(log, c1));
    var full := FullSequence(p, id);
    var c2 := SaveItemImage(id, p.blob);
    assert full[..1] == [c1] && full[..2] == [c1, c2];
    assert run.calls[..0] == [];
    assert log + [] == log;
    if respond(log, c1).Rejected? {
      assert run.calls == [c1] == full[..1];
      assert run.result == Err(TranslateCreateItemError(respond(log + run.calls[..0], run.calls[0]).reason));
    } else if respond(log + [c1], c2).Rejected? || p.itemType != Nft {
      assert run.calls == [c1, c2] == full[..2];
      assert run.calls[..1] == [c1];
      assert respond(log + run.calls[..0], run.calls[0]).Resolved?;
    } else {
      assert run.calls == full;
      assert run.calls[..1] == [c1];
      assert run.calls[..2] == [c1, c2];
    }
  }

  /** `createNft` is called only for NFT items, and every successful NFT run calls it. */
  lemma NftMintedIffNft(respond: (seq<Call>, Call) -> Reply, log: seq<Call>, p: CreateItemParams)
    ensures var run := CreateItemRun(respond, log, p);
            (exists k :: 0 <= k < |run.calls| && run.calls[k].CreateNft?) ==> p.itemType == Nft
    ensures var run := CreateItemRun(respond, log, p);
            run.result.Ok? && p.itemType == Nft ==> run.calls[|run.calls| - 1] == CreateNft(run.result.value)
  {
  }

  // ----------------------------------------------------------- save profile

  const ProfilePermissionMessage: string := "You do not have permission to create a profile. Please try logging in again."
  const ProfileNetworkMessage: string := "Network error. Please check your internet connection and try again."
  const ProfileTimeoutMessage: string := "Request timed out. Please try again."
  const ProfileBackendMessage: string := "Backend connection error. Please refresh the page and try again."

  /** The generic wrapper for any other failure. */
  function ProfileGenericMessage(t: Thrown): string {
    "Failed to create profile: " + (if t.Error? then t.message else "Unknown error")
    + ". Please try again or contact support if the issue persists."
  }

  /** The save-profile catch block: the lower-cased message is tested for
      keywords in a fixed order; the first hit picks the message. */
  function TranslateSaveProfileError(t: Thrown): (r: string) {
    var m := if t.Error? then ToLower(t.message) else "";
    if t.Error? && (Includes(m, "unauthorized") || Includes(m, "permission")) then ProfilePermissionMessage
    else if t.Error? && (Includes(m, "network") || Includes(m, "fetch") || Includes(m, "connection")) then ProfileNetworkMessage
    else if t.Error? && Includes(m, "timeout") then ProfileTimeoutMessage
    else if t.Error? && Includes(m, "actor") then ProfileBackendMessage
    else ProfileGenericMessage(t)
  }

  /** Keywords are tested on the lower-cased message, one test after the
      other: the first keyword group that occurs decides. */
  lemma SaveProfileTranslationPrecedence(m: string)
    ensures var l := ToLower(m);
            (Contains(l, "unauthorized") || Contains(l, "permission"))
            ==> TranslateSaveProfileError(Error(m)) == ProfilePermissionMessage
    ensures var l := ToLower(m);
            (!Contains(l, "unauthorized") && !Contains(l, "permission")
             && (Contains(l, "network") || Contains(l, "fetch") || Contains(l, "connection")))
            ==> TranslateSaveProfileError(Error(m)) == ProfileNetworkMessage
    ensures var l := ToLower(m);
            (!Contains(l, "unauthorized") && !Contains(l, "permission") && !Contains(l, "network")
             && !Contains(l, "fetch") && !Contains(l, "connection") && Contains(l, "timeout"))
            ==> TranslateSaveProfileError(Error(m)) == ProfileTimeoutMessage
    ensures var l := ToLower(m);
            (!Contains(l, "unauthorized") && !Contains(l, "permission") && !Contains(l, "network")
             && !Contains(l, "fetch") && !Contains(l, "connection") && !Contains(l, "timeout")
             && Contains(l, "actor"))
            ==> TranslateSaveProfileError(Error(m)) == ProfileBackendMessage
    ensures var l := ToLower(m);
            (!Contains(l, "unauthorized") && !Contains(l, "permission") && !Contains(l, "network")
             && !Contains(l, "fetch") && !Contains(l, "connection") && !Contains(l, "timeout")
             && !Contains(l, "actor"))
            ==> TranslateSaveProfileError(Error(m)) == ProfileGenericMessage(Error(m))
    ensures TranslateSaveProfileError(NonError) == ProfileGenericMessage(NonError)
  {
    var l := ToLower(m);
    var a, b := Includes(l, "unauthorized"), Includes(l, "permission");
    var c, d, e := Includes(l, "network"), Includes(l, "fetch"), Includes(l, "connection");
    var f, g := Includes(l, "timeout"), Includes(l, "actor");
  }

  /** Only the lower-cased message matters, except for the generic wrapper,
      which quotes the message as it was. */
  lemma {:induction false} SaveProfileTranslationIgnoresCase(m1: string, m2: string)
    requires ToLower(m1) == ToLower(m2)
    ensures TranslateSaveProfileError(Error(m1)) == TranslateSaveProfileError(Error(m2))
            || (TranslateSaveProfileError(Error(m1)) == ProfileGenericMessage(Error(m1))
                && TranslateSaveProfileError(Error(m2)) == ProfileGenericMessage(Error(m2)))
  {
  }

  /** Upper case does not hide a keyword. */
  lemma SaveProfileTranslationCases()
    ensures TranslateSaveProfileError(Error("UNAUTHORIZED")) == ProfilePermissionMessage
  {
    assert ToLower("UNAUTHORIZED") == "unauthorized";
    assert OccursAt("unauthorized", "unauthorized", 0);
  }

  /** A message naming only a timeout is reported as one, and a timeout
      outranks a mention of the actor. */
  lemma SaveProfileTimeoutCases()
    ensures TranslateSaveProfileError(Error("timeout")) == ProfileTimeoutMessage
    ensures TranslateSaveProfileError(Error("Actor call timeout")) == ProfileTimeoutMessage
  {
    TimeoutAlone();
    TimeoutOverActor();
  }

  lemma TimeoutAlone()
    ensures TranslateSaveProfileError(Error("timeout")) == ProfileTimeoutMessage
  {
    var lt := "timeout";
    assert ToLower(lt) == lt;
    assert OccursAt(lt, "timeout", 0);
    MissingCharNotContained(lt, "unauthorized", 2);
    MissingCharNotContained(lt, "permission", 0);
    MissingCharNotContained(lt, "fetch", 0);
    MissingCharNotContained(lt, "network", 0);
    MissingCharNotContained(lt, "connection", 0);
    SaveProfileTranslationPrecedence(lt);
  }

  lemma TimeoutOverActor()
    ensures TranslateSaveProfileError(Error("Actor call timeout")) == ProfileTimeoutMessage
  {
    ActorCallTimeoutLower();
    ActorCallTimeoutKeywords();
    SaveProfileTranslationPrecedence("Actor call timeout");
  }

  lemma ActorCallTimeoutLower()
    ensures ToLower("Actor call timeout") == "actor call timeout"
  {
  }

  lemma ActorCallTimeoutKeywords()
    ensures var la := "actor call timeout";
            Contains(la, "timeout") && !Contains(la, "unauthorized") && !Contains(la, "permission")
            && !Contains(la, "network") && !Contains(la, "fetch") && !Contains(la, "connection")
  {
    var la := "actor call timeout";
    assert OccursAt(la, "timeout", 11);
    MissingCharNotContained(la, "unauthorized", 11);
    MissingCharNotContained(la, "permission", 0);
    MissingCharNotContained(la, "network", 0);
    MissingCharNotContained(la, "fetch", 0);
    MissingCharNotContained(la, "connection", 2);
  }

  /** The save-profile mutation: without an actor it throws at once; with
      one it makes exactly one call and throws, translated, on rejection. */
  function SaveProfileResult(hasActor: bool, reply: Reply): Result<(), Thrown> {
    if !hasActor then Err(Error("Actor not available. Please try logging in again."))
    else if reply.Rejected? then Err(Error(TranslateSaveProfileError(reply.reason)))
    else Ok(())
  }

  /** The save reports success only when the backend answered the call; every
      failure path throws an `Error`. */
  lemma SaveProfileNeverHidesFailure(hasActor: bool, reply: Reply)
    ensures SaveProfileResult(hasActor, reply).Ok? <==> hasActor && reply.Resolved?
    ensures SaveProfileResult(hasActor, reply).Err? ==> SaveProfileResult(hasActor, reply).error.Error?
  {
  }

  /** `useSaveCallerUserProfile().mutateAsync(profile)` */
  method SaveCallerUserProfile(actor: Actor?, profile: UserProfile) returns (r: Result<(), Thrown>)
    modifies actor
    ensures actor == null ==> r == SaveProfileResult(false, Resolved(""))
    ensures actor != null ==>
      actor.calls == old(actor.calls) + [Call.SaveCallerUserProfile(profile)] && r == SaveProfileResult(true, actor.respond(old(actor.calls), Call.SaveCallerUserProfile(profile)))
  {
    if actor == null {
      return Err(Error("Actor not available. Please try logging in again."));
    }
    var reply := actor.Invoke(Call.SaveCallerUserProfile(profile));
    if reply.Rejected? {
      return Err(Error(TranslateSaveProfileError(reply.reason)));
    }
    r := Ok(());
  }

  /** `useCreateItem().mutateAsync(params)`: without an actor it throws
      "Actor not available" before any call. */
  method CreateItemMutation(actor: Actor?, p: CreateItemParams) returns (r: Result<string, Thrown>)
    modifies actor
    ensures actor == null ==> r == Err(Error("Actor not available"))
    ensures actor != null ==>
      var run := CreateItemRun(actor.respond, old(actor.calls), p);
      r == run.result && actor.calls == old(actor.calls) + run.calls
  {
    if actor == null {
      return Err(Error("Actor not available"));
    }
    ghost var log := actor.calls;
    var c1 := CreateItem(p.title, p.description, p.price, p.itemType);
    var reply := actor.Invoke(c1);
    if reply.Rejected? {
      return Err(TranslateCreateItemError(reply.reason));
    }
    var itemId := reply.value;
    var c2 := SaveItemImage(itemId, p.blob);
    reply := actor.Invoke(c2);
    assert actor.calls == log + [c1, c2];
    if reply.Rejected? {
      return Err(TranslateCreateItemError(reply.reason));
    }
    if p.itemType == Nft {
      reply := actor.Invoke(CreateNft(itemId));
      assert actor.calls == log + [c1, c2, CreateNft(itemId)];
      if reply.Rejected? {
        return Err(TranslateCreateItemError(reply.reason));
      }
    }
    assert actor.calls == log + FullSequence(p, itemId);
    r := Ok(itemId);
  }
}
