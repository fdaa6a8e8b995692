/** The batch upload page: every selected file becomes one upload item,
    each item goes pending → uploading → success or error through fixed
    progress checkpoints, "upload all" walks the list in order, and a failed
    item can be retried on its own.

    The backend is the `Actor` oracle and the file reader is the event each
    file's read yields; the page's list is a field that every step
    reassigns, as React's state setter does. */
module Upload {
  import opened Wrappers
  import opened Backend
  import opened Seqs
  import opened FileProcessing
  import opened Queries
  import Navigation
  import opened ProfileForm

  // ------------------------------------------------------------ data model

  /** A selected file: its name, and how the reader settles on it. */
  datatype File = File(name: string, read: ReaderEvent)

  /** The item's `status`; `Failed` is the source's `'error'`. */
  datatype Status = Pending | Uploading | Success | Failed

  datatype UploadItem = UploadItem(
    file: File,
    title: string,
    description: string,
    price: string,
    itemType: ItemType,
    status: Status,
    progress: nat,
    error: Option<string>)

  /** A `Partial<UploadItem>`: the fields an update overwrites. */
  datatype Patch = Patch(
    title: Option<string>,
    description: Option<string>,
    price: Option<string>,
    itemType: Option<ItemType>,
    status: Option<Status>,
    progress: Option<nat>,
    error: Option<string>)

  function Pick<T>(o: Option<T>, current: T): T {
    if o.Some? then o.value else current
  }

  /** `{ ...item, ...updates }` */
  function Apply(item: UploadItem, p: Patch): UploadItem {
    UploadItem(item.file, Pick(p.title, item.title), Pick(p.description, item.description),
      Pick(p.price, item.price), Pick(p.itemType, item.itemType), Pick(p.status, item.status),
      Pick(p.progress, item.progress), if p.error.Some? then p.error else item.error)
  }

  /** The patches applied one after the other. */
  function ApplyAll(item: UploadItem, ps: seq<Patch>): UploadItem
    decreases |ps|
  {
    if ps == [] then item else Apply(ApplyAll(item, ps[..|ps| - 1]), ps[|ps| - 1])
  }

  lemma ApplyAllSnoc(item: UploadItem, ps: seq<Patch>, p: Patch)
    ensures ApplyAll(item, ps + [p]) == Apply(ApplyAll(item, ps), p)
  {
    assert (ps + [p])[..|ps|] == ps;
  }

  /** The fields that make up the listing, which the upload steps never touch. */
  predicate SameListing(a: UploadItem, b: UploadItem) {
    a.file == b.file && a.title == b.title && a.description == b.description
    && a.price == b.price && a.itemType == b.itemType
  }

  /** A patch that only moves the upload along: it leaves the listing's
      fields alone. */
  predicate Progressing(p: Patch) {
    p.title.None? && p.description.None? && p.price.None? && p.itemType.None?
  }

  /** Progress patches keep the listing, and keep the stored error when
      none of them sets one. */
  lemma {:induction false} ApplyAllKeepsListing(item: UploadItem, ps: seq<Patch>)
    requires forall k :: 0 <= k < |ps| ==> Progressing(ps[k])
    ensures SameListing(ApplyAll(item, ps), item)
    ensures (forall k :: 0 <= k < |ps| ==> ps[k].error.None?) ==> ApplyAll(item, ps).error == item.error
    decreases |ps|
  {
    if ps != [] {
      ApplyAllKeepsListing(item, ps[..|ps| - 1]);
    }
  }

  // ----------------------------------------------------------------- access

  /** The page admits only a signed-in caller whose profile says artist;
      everyone else is shown the access-denied card. */
  predicate UploadAllowed(isAuthenticated: bool, profile: Option<UserProfile>) {
    isAuthenticated && profile.Some? && profile.value.isArtist
  }

  /** The navigation bar offers the upload link to exactly the callers the
      page admits. */
  lemma UploadLinkIffAllowed(isAuthenticated: bool, profile: Option<UserProfile>)
    ensures Navigation.NavLink(Navigation.UploadRoute, true) in Navigation.VisibleLinks(isAuthenticated, profile)
            <==> UploadAllowed(isAuthenticated, profile)
  {
    Navigation.VisibleLinksExact(isAuthenticated, profile);
  }

  // --------------------------------------------------------- file selection

  /** The default title: the file name without a trailing extension. The
      pattern `\.[^/.]+$` matches at `d` exactly when `d` holds a dot that
      is followed by at least one character, none of them a dot or a slash. */
  predicate ExtensionAt(name: string, d: int) {
    0 <= d < |name| - 1 && name[d] == '.'
    && forall j :: d < j < |name| ==> name[j] != '.' && name[j] != '/'
  }

  /** Scans `name[..k]` from the right for the dot that starts the extension,
      knowing that `name[k..]` holds no dot and no slash. */
  function ExtensionFrom(name: string, k: nat): (d: int)
    requires k <= |name|
    requires forall j :: k <= j < |name| ==> name[j] != '.' && name[j] != '/'
    ensures d == -1 || ExtensionAt(name, d)
    ensures d == -1 <==> forall e :: !ExtensionAt(name, e)
  {
    if k == 0 then -1
    else if name[k - 1] == '/' then
      assert forall e :: 0 <= e < k - 1 ==> !ExtensionAt(name, e) by {
        forall e | 0 <= e < k - 1 ensures !ExtensionAt(name, e) {
          assert name[k - 1] == '/';
        }
      }
      -1
    else if name[k - 1] == '.' then
      if k - 1 < |name| - 1 then k - 1
      else
        assert forall e :: 0 <= e < k - 1 ==> !ExtensionAt(name, e) by {
          forall e | 0 <= e < k - 1 ensures !ExtensionAt(name, e) {
            assert name[k - 1] == '.';
          }
        }
        -1
    else ExtensionFrom(name, k - 1)
  }

  /** At most one position starts an extension, so the first match of the
      pattern is the only one. */
  lemma ExtensionUnique(name: string, d: int, e: int)
    requires ExtensionAt(name, d) && ExtensionAt(name, e)
    ensures d == e
  {
  }

  /** `file.name.replace(/\.[^/.]+$/, '')` */
  function DefaultTitle(name: string): (t: string)
    ensures (exists d :: ExtensionAt(name, d) && t == name[..d])
            || ((forall d :: !ExtensionAt(name, d)) && t == name)
  {
    var d := ExtensionFrom(name, |name|);
    if d == -1 then name else name[..d]
  }

  /** The title drops exactly the extension the pattern finds. */
  lemma DefaultTitleAt(name: string, d: int)
    requires ExtensionAt(name, d)
    ensures DefaultTitle(name) == name[..d]
  {
    var e :| ExtensionAt(name, e) && DefaultTitle(name) == name[..e];
    ExtensionUnique(name, d, e);
  }

  /** What the default title keeps: a prefix of the name, the whole name
      exactly when there is no extension, and otherwise everything before
      the last dot. */
  lemma DefaultTitleShape(name: string)
    ensures var t := DefaultTitle(name);
            |t| <= |name| && t == name[..|t|]
            && (t == name <==> forall d :: !ExtensionAt(name, d))
            && (t != name ==> ExtensionAt(name, |t|))
  {
    var t := DefaultTitle(name);
    if t != name {
      var d :| ExtensionAt(name, d) && t == name[..d];
      assert |t| == d;
    }
  }

  /** A few names: an image, a double extension, a dot-file, a dot in a
      directory name, and a trailing dot. */
  lemma DefaultTitleExamples()
    ensures DefaultTitle("art.png") == "art"
    ensures DefaultTitle("a.tar.gz") == "a.tar"
    ensures DefaultTitle(".png") == ""
    ensures DefaultTitle("v.1/x") == "v.1/x"
    ensures DefaultTitle("x.") == "x."
  {
    DefaultTitleAt("art.png", 3);
    DefaultTitleAt("a.tar.gz", 5);
    DefaultTitleAt(".png", 0);
    var s := "v.1/x";
    forall d | 0 <= d < |s| - 1 ensures !ExtensionAt(s, d) {
      assert s[3] == '/';
    }
    var x := "x.";
    assert !ExtensionAt(x, 0);
  }

  /** One fresh item per file. */
  function InitialItem(f: File): UploadItem {
    UploadItem(f, DefaultTitle(f.name), "", "10.00", DigitalArt, Status.Pending, 0, None)
  }

  /** The items a file selection creates, in selection order. */
  function InitialItems(files: seq<File>): (r: seq<UploadItem>)
    ensures |r| == |files|
    ensures forall i :: 0 <= i < |r| ==> r[i].file == files[i] && r[i].title == DefaultTitle(files[i].name)
    ensures forall i :: 0 <= i < |r| ==>
              r[i].status == Status.Pending && r[i].progress == 0 && r[i].description == ""
              && r[i].price == "10.00" && r[i].itemType == DigitalArt && r[i].error == None
  {
    seq(|files|, i requires 0 <= i < |files| => InitialItem(files[i]))
  }

  // ------------------------------------------------------------- updates

  /** `updateItem`: the item at `index` takes the patch; the rest stay. */
  function UpdateItem(items: seq<UploadItem>, index: int, p: Patch): (r: seq<UploadItem>)
    ensures 0 <= index < |items| ==> r == items[index := Apply(items[index], p)]
    ensures !(0 <= index < |items|) ==> r == items
  {
    seq(|items|, i requires 0 <= i < |items| => if i == index then Apply(items[i], p) else items[i])
  }

  /** Updates at two different positions do not interfere. */
  lemma UpdatesCommute(items: seq<UploadItem>, i: int, j: int, p: Patch, q: Patch)
    requires i != j
    ensures UpdateItem(UpdateItem(items, i, p), j, q) == UpdateItem(UpdateItem(items, j, q), i, p)
  {
  }

  // ------------------------------------------------------- one item's upload

  const StartPatch: Patch := Patch(None, None, None, None, Some(Uploading), Some(10), None)

  function ProgressPatch(n: nat): Patch {
    Patch(None, None, None, None, None, Some(n), None)
  }

  const SuccessPatch: Patch := Patch(None, None, None, None, Some(Success), Some(100), None)

  /** What the catch block stores: the `Error`'s message, or "Upload failed". */
  function FailureMessage(t: Thrown): string {
    if t.Error? then t.message else "Upload failed"
  }

  function FailurePatch(t: Thrown): Patch {
    Patch(None, None, None, None, Some(Status.Failed), Some(0), Some(FailureMessage(t)))
  }

  /** What `Math.round(parseFloat(price) * 100)` yields: `NaN`, a whole
      number of cents, or an infinity when the product overflows. */
  datatype Rounded = NaN | Cents(cents: int) | Infinity(positive: bool)

  /** `isNaN(price) || price <= 0` fails; only a positive number passes,
      and `Infinity` is one. */
  predicate PassesPriceCheck(r: Rounded) {
    (r.Cents? && r.cents > 0) || r == Infinity(true)
  }

  /** What `BigInt(Infinity)` throws. */
  const NotAnInteger: Thrown := Error("The number Infinity cannot be converted to a BigInt because it is not an integer")

  /** One attempt: the patches it applies to its item, whether it read the
      file, the backend calls it made, and whether it resolved or re-threw. */
  datatype AttemptRun = AttemptRun(patches: seq<Patch>, fileRead: bool, calls: seq<Call>, outcome: Result<(), Thrown>)

  /** `uploadSingleItem`, given the price parser, the backend and its log. */
  function Attempt(item: UploadItem, parseCents: string -> Rounded, hasActor: bool,
                   respond: (seq<Call>, Call) -> Reply, log: seq<Call>): AttemptRun
  {
    var price := parseCents(item.price);
    if !PassesPriceCheck(price) then
      var t := Error("Invalid price");
      AttemptRun([StartPatch, FailurePatch(t)], false, [], Err(t))
    else
      AttemptPriced(item, price, hasActor, respond, log)
  }

  /** The attempt once the price passed its check: read, then create. */
  function AttemptPriced(item: UploadItem, price: Rounded, hasActor: bool,
                         respond: (seq<Call>, Call) -> Reply, log: seq<Call>): AttemptRun
  {
    var bytes := ReadOutcome(item.file.read);
    if bytes.Err? then
      AttemptRun([StartPatch, ProgressPatch(20), FailurePatch(bytes.error)], true, [], Err(bytes.error))
    else
      AfterRead(item, price, bytes.value, hasActor, respond, log)
  }

  /** The attempt once the file was read: `BigInt(price)` throws for an
      infinite price before the mutation is called; otherwise the mutation
      runs. */
  function AfterRead(item: UploadItem, price: Rounded, blob: seq<byte>, hasActor: bool,
                     respond: (seq<Call>, Call) -> Reply, log: seq<Call>): AttemptRun
  {
    if price.Cents? then
      Created(CreateItemOutcome(hasActor, respond, log,
                CreateItemParams(item.title, item.description, price.cents, item.itemType, blob)))
    else
      AttemptRun([StartPatch, ProgressPatch(20), ProgressPatch(40), FailurePatch(NotAnInteger)], true, [], Err(NotAnInteger))
  }

  /** The attempt once the file was read, given what the mutation did. */
  function Created(run: CreateRun): AttemptRun {
    if run.result.Err? then
      AttemptRun([StartPatch, ProgressPatch(20), ProgressPatch(40), FailurePatch(run.result.error)], true, run.calls, Err(run.result.error))
    else
      AttemptRun([StartPatch, ProgressPatch(20), ProgressPatch(40), SuccessPatch], true, run.calls, Ok(()))
  }

  /** The progress checkpoints: an attempt starts at uploading/10 and ends
      with the success patch (success/100) when it resolves, or with the
      failure patch (error/0 and the message) when it re-throws; it passes
      20 only when the price was valid, and 40 only when the file was read. */
  lemma AttemptPatches(item: UploadItem, parseCents: string -> Rounded, hasActor: bool,
                       respond: (seq<Call>, Call) -> Reply, log: seq<Call>)
    ensures var run := Attempt(item, parseCents, hasActor, respond, log);
            2 <= |run.patches| <= 4 && run.patches[0] == StartPatch
            && (forall k :: 0 <= k < |run.patches| ==> Progressing(run.patches[k]))
            && (run.outcome.Ok? ==> run.patches == [StartPatch, ProgressPatch(20), ProgressPatch(40), SuccessPatch])
            && (run.outcome.Err? ==> run.patches[|run.patches| - 1] == FailurePatch(run.outcome.error))
            && (|run.patches| > 2 ==> run.patches[1] == ProgressPatch(20) && run.fileRead)
            && (|run.patches| > 3 ==> run.patches[2] == ProgressPatch(40) && ReadOutcome(item.file.read).Ok?)
  {
  }

  /** Where an attempt leaves its item: the listing untouched, and either
      success/100 with the stored error as it was, or error/0 with the
      failure's message stored. */
  lemma AttemptCheckpoints(item: UploadItem, parseCents: string -> Rounded, hasActor: bool,
                           respond: (seq<Call>, Call) -> Reply, log: seq<Call>)
    ensures var run := Attempt(item, parseCents, hasActor, respond, log);
            var last := ApplyAll(item, run.patches);
            SameListing(last, item)
            && (run.outcome.Ok? ==> last.status == Success && last.progress == 100 && last.error == item.error)
            && (run.outcome.Err? ==>
                  last.status == Status.Failed && last.progress == 0
                  && last.error == Some(FailureMessage(run.outcome.error)))
  {
    AttemptPatches(item, parseCents, hasActor, respond, log);
    var ps := Attempt(item, parseCents, hasActor, respond, log).patches;
    ApplyAllKeepsListing(item, ps);
    assert ApplyAll(item, ps) == Apply(ApplyAll(item, ps[..|ps| - 1]), ps[|ps| - 1]);
  }

  /** A price that does not parse, or is not positive, fails the item with
      "Invalid price" before the file is read and before any backend call. */
  lemma InvalidPriceFailsEarly(item: UploadItem, parseCents: string -> Rounded, hasActor: bool,
                               respond: (seq<Call>, Call) -> Reply, log: seq<Call>)
    requires !PassesPriceCheck(parseCents(item.price))
    ensures var run := Attempt(item, parseCents, hasActor, respond, log);
            run.outcome == Err(Error("Invalid price")) && !run.fileRead && run.calls == []
            && ApplyAll(item, run.patches).error == Some("Invalid price")
  {
    var run := Attempt(item, parseCents, hasActor, respond, log);
    assert run.patches[..1] == [StartPatch];
  }

  /** An attempt resolves exactly when the price is valid, the file reads as
      bytes and the create-item mutation resolves; it then sends that
      mutation the item's title, description, type, the price in cents and
      the file's bytes. */
  lemma AttemptSucceedsIff(item: UploadItem, parseCents: string -> Rounded, hasActor: bool,
                           respond: (seq<Call>, Call) -> Reply, log: seq<Call>)
    ensures var run := Attempt(item, parseCents, hasActor, respond, log);
            var price, bytes := parseCents(item.price), ReadOutcome(item.file.read);
            run.outcome.Ok? <==>
              price.Cents? && price.cents > 0 && bytes.Ok?
              && CreateItemOutcome(hasActor, respond, log,
                   CreateItemParams(item.title, item.description, price.cents, item.itemType, bytes.value)).result.Ok?
    ensures var run := Attempt(item, parseCents, hasActor, respond, log);
            run.calls != [] ==> hasActor && parseCents(item.price).Cents?
                                && run.calls[0] == CreateItem(item.title, item.description, parseCents(item.price).cents, item.itemType)
  {
    var run := Attempt(item, parseCents, hasActor, respond, log);
    if run.calls != [] {
      var price, bytes := parseCents(item.price), ReadOutcome(item.file.read);
      var p := CreateItemParams(item.title, item.description, price.cents, item.itemType, bytes.value);
      CreateItemSequence(respond, log, p);
    }
  }

  /** A price so large that it rounds to `Infinity` passes the price check,
      so the file is read; once it is, `BigInt` throws before the mutation
      is called. The item fails, and the backend hears nothing. */
  lemma InfinitePriceFailsUncalled(item: UploadItem, parseCents: string -> Rounded, hasActor: bool,
                                   respond: (seq<Call>, Call) -> Reply, log: seq<Call>)
    requires parseCents(item.price) == Infinity(true)
    ensures var run := Attempt(item, parseCents, hasActor, respond, log);
            run.calls == [] && run.fileRead && run.outcome.Err?
            && (ReadOutcome(item.file.read).Ok? ==>
                  run.outcome == Err(NotAnInteger) && |run.patches| == 4 && run.patches[2] == ProgressPatch(40))
  {
  }

  /** The open point of the retry path: a retry runs the whole attempt
      again, so when an earlier attempt got as far as `createItem` and then
      failed, the retry sends the very same `createItem` a second time and
      the backend may hold two listings for the file. */
  lemma RetryResendsCreateItem(item: UploadItem, parseCents: string -> Rounded,
                               respond: (seq<Call>, Call) -> Reply, log: seq<Call>)
    requires var run := Attempt(item, parseCents, true, respond, log);
             run.outcome.Err? && run.calls != []
    ensures var run := Attempt(item, parseCents, true, respond, log);
            var again := Attempt(ApplyAll(item, run.patches), parseCents, true, respond, log + run.calls);
            again.calls != [] && again.calls[0] == run.calls[0] && run.calls[0].CreateItem?
  {
    var run := Attempt(item, parseCents, true, respond, log);
    var next := ApplyAll(item, run.patches);
    AttemptCheckpoints(item, parseCents, true, respond, log);
    AttemptSucceedsIff(item, parseCents, true, respond, log);
    AttemptSucceedsIff(next, parseCents, true, respond, log + run.calls);
    var price, bytes := parseCents(item.price), ReadOutcome(item.file.read);
    CreateItemSequence(respond, log + run.calls,
      CreateItemParams(item.title, item.description, price.cents, item.itemType, bytes.value));
  }

  // ------------------------------------------------------- counts and notices

  /** `items.filter(item => item.status === st).length` */
  function CountStatus(items: seq<UploadItem>, st: Status): nat {
    if items == [] then 0 else CountStatus(items[..|items| - 1], st) + (if items[|items| - 1].status == st then 1 else 0)
  }

  /** The count is the length of the source's filter. */
  lemma {:induction false} CountIsFilterLength(items: seq<UploadItem>, st: Status)
    ensures CountStatus(items, st) == |Filter(items, (x: UploadItem) => x.status == st)|
    decreases |items|
  {
    if items != [] {
      var init, last := items[..|items| - 1], items[|items| - 1];
      assert items == init + [last];
      CountIsFilterLength(init, st);
      FilterConcat(init, [last], (x: UploadItem) => x.status == st);
      assert [last][1..] == [];
    }
  }

  /** A count is positive exactly when some item has that status. */
  lemma {:induction false} CountPositiveIff(items: seq<UploadItem>, st: Status)
    ensures CountStatus(items, st) > 0 <==> exists i :: 0 <= i < |items| && items[i].status == st
    decreases |items|
  {
    if items != [] {
      var init := items[..|items| - 1];
      CountPositiveIff(init, st);
      if exists i :: 0 <= i < |init| && init[i].status == st {
        var i :| 0 <= i < |init| && init[i].status == st;
        assert items[i] == init[i];
      }
    }
  }

  lemma CountSnoc(items: seq<UploadItem>, x: UploadItem, st: Status)
    ensures CountStatus(items + [x], st) == CountStatus(items, st) + (if x.status == st then 1 else 0)
  {
    assert (items + [x])[..|items|] == items;
  }

  /** The upload-all button is enabled when nothing is uploading and some
      item is pending or failed. */
  function UploadAllEnabled(isUploading: bool, items: seq<UploadItem>): (b: bool)
    ensures b <==> !isUploading && exists i :: 0 <= i < |items| && (items[i].status == Status.Pending || items[i].status == Status.Failed)
  {
    CountPositiveIff(items, Status.Pending);
    CountPositiveIff(items, Status.Failed);
    !isUploading && (CountStatus(items, Status.Pending) > 0 || CountStatus(items, Status.Failed) > 0)
  }

  /** What upload-all reports: the success toast with its count, navigation
      to my-items, and the failure toast with its count. */
  datatype Notice = Notice(successToast: Option<nat>, navigateToMyItems: bool, failureToast: Option<nat>)

  function NoticeFor(successCount: nat, errorCount: nat): (n: Notice)
    ensures n.navigateToMyItems <==> successCount > 0 && errorCount == 0
    ensures n.successToast.Some? <==> successCount > 0
    ensures n.failureToast.Some? <==> errorCount > 0
    ensures n.successToast.Some? ==> n.successToast.value == successCount
    ensures n.failureToast.Some? ==> n.failureToast.value == errorCount
  {
    Notice(if successCount > 0 then Some(successCount) else None,
           successCount > 0 && errorCount == 0,
           if errorCount > 0 then Some(errorCount) else None)
  }

  /** The toast a retry raises, naming the item by its title. */
  function RetryToast(title: string, outcome: Result<(), Thrown>): Toast {
    if outcome.Ok? then SuccessToast("Successfully uploaded " + title + "!")
    else ErrorToast("Failed to upload " + title)
  }

  /** How upload-all leaves an item: listing untouched, settled in success
      or error, and exactly as it was if it had already succeeded. */
  predicate Settled(before: UploadItem, after: UploadItem) {
    SameListing(after, before)
    && (after.status == Success || after.status == Status.Failed)
    && (before.status == Success ==> after == before)
  }

  /** The positions upload-all attempts among the first `n` items: those not
      already successful, in increasing order. */
  function Unfinished(items: seq<UploadItem>, n: nat): (r: seq<nat>)
    requires n <= |items|
  {
    if n == 0 then [] else Unfinished(items, n - 1) + (if items[n - 1].status != Success then [n - 1] else [])
  }

  /** Every unfinished position is attempted exactly once, in increasing
      order, and the successful ones are skipped. */
  lemma {:induction false} UnfinishedExactlyOnce(items: seq<UploadItem>, n: nat)
    requires n <= |items|
    ensures var r := Unfinished(items, n);
            (forall k :: 0 <= k < |r| ==> r[k] < n && items[r[k]].status != Success)
            && (forall k, l :: 0 <= k < l < |r| ==> r[k] < r[l])
            && (forall i :: 0 <= i < n && items[i].status != Success ==> i in r)
            && |r| == n - CountStatus(items[..n], Success)
  {
    UnfinishedBounds(items, n);
    UnfinishedSorted(items, n);
    UnfinishedComplete(items, n);
    UnfinishedLength(items, n);
  }

  lemma {:induction false} UnfinishedBounds(items: seq<UploadItem>, n: nat)
    requires n <= |items|
    ensures forall k :: 0 <= k < |Unfinished(items, n)| ==>
              Unfinished(items, n)[k] < n && items[Unfinished(items, n)[k]].status != Success
  {
    if n > 0 {
      UnfinishedBounds(items, n - 1);
      var r0, r := Unfinished(items, n - 1), Unfinished(items, n);
      assert r == r0 + (if items[n - 1].status != Success then [n - 1] else []);
      forall k | 0 <= k < |r| ensures r[k] < n && items[r[k]].status != Success {
        if k < |r0| {
          assert r[k] == r0[k];
        }
      }
    }
  }

  lemma {:induction false} UnfinishedSorted(items: seq<UploadItem>, n: nat)
    requires n <= |items|
    ensures forall k, l :: 0 <= k < l < |Unfinished(items, n)| ==> Unfinished(items, n)[k] < Unfinished(items, n)[l]
  {
    if n > 0 {
      UnfinishedSorted(items, n - 1);
      UnfinishedBounds(items, n - 1);
      var r0, r := Unfinished(items, n - 1), Unfinished(items, n);
      if items[n - 1].status != Success {
        assert r == r0 + [n - 1];
        forall k, l | 0 <= k < l < |r| ensures r[k] < r[l] {
          assert r[k] == r0[k];
          if l < |r0| {
            assert r[l] == r0[l];
          } else {
            assert r[l] == n - 1;
          }
        }
      } else {
        assert r == r0;
      }
    }
  }

  lemma {:induction false} UnfinishedComplete(items: seq<UploadItem>, n: nat)
    requires n <= |items|
    ensures forall i :: 0 <= i < n && items[i].status != Success ==> i in Unfinished(items, n)
  {
    if n > 0 {
      UnfinishedComplete(items, n - 1);
      var r0, r := Unfinished(items, n - 1), Unfinished(items, n);
      forall i | 0 <= i < n && items[i].status != Success ensures i in r {
        if i < n - 1 {
          assert i in r0;
        } else {
          assert r[|r| - 1] == n - 1;
        }
      }
    }
  }

  lemma {:induction false} UnfinishedLength(items: seq<UploadItem>, n: nat)
    requires n <= |items|
    ensures |Unfinished(items, n)| == n - CountStatus(items[..n], Success)
  {
    if n > 0 {
      UnfinishedLength(items, n - 1);
      assert items[..n] == items[..n - 1] + [items[n - 1]];
      CountSnoc(items[..n - 1], items[n - 1], Success);
    }
  }

  /** Patches as `updateItem` calls at one position. */
  function Tagged(index: int, ps: seq<Patch>): (r: seq<(int, Patch)>)
    ensures |r| == |ps|
  {
    if ps == [] then [] else Tagged(index, ps[..|ps| - 1]) + [(index, ps[|ps| - 1])]
  }

  lemma TaggedSnoc(index: int, ps: seq<Patch>, p: Patch)
    ensures Tagged(index, ps + [p]) == Tagged(index, ps) + [(index, p)]
  {
    assert (ps + [p])[..|ps|] == ps;
  }

  /** Upload-all's loop after `i` turns: the rest of the list is still the
      snapshot, the visited items are settled, and the two counters count
      the visited items' final statuses. */
  ghost predicate Walked(snapshot: seq<UploadItem>, items: seq<UploadItem>, i: nat, successes: nat, errors: nat) {
    i <= |snapshot| == |items|
    && (forall j :: i <= j < |items| ==> items[j] == snapshot[j])
    && (forall j :: 0 <= j < i ==> Settled(snapshot[j], items[j]))
    && successes == CountStatus(items[..i], Success)
    && errors == CountStatus(items[..i], Status.Failed)
    && successes + errors == i
  }

  /** One turn of the loop extends the attempt log by the turn's position,
      unless that item had already succeeded. */
  lemma UnfinishedStep(snapshot: seq<UploadItem>, i: nat, a0: seq<nat>, a1: seq<nat>, a2: seq<nat>)
    requires i < |snapshot| && a1 == a0 + Unfinished(snapshot, i)
    requires a2 == a1 + (if snapshot[i].status != Success then [i] else [])
    ensures a2 == a0 + Unfinished(snapshot, i + 1)
  {
  }

  /** Once the walk is over, the whole list is settled and counted. */
  lemma WalkedAll(snapshot: seq<UploadItem>, items: seq<UploadItem>, successes: nat, errors: nat)
    requires Walked(snapshot, items, |snapshot|, successes, errors)
    ensures |items| == |snapshot| && forall i :: 0 <= i < |items| ==> Settled(snapshot[i], items[i])
    ensures successes == CountStatus(items, Success) && errors == CountStatus(items, Status.Failed)
  {
    assert items[..|snapshot|] == items;
  }

  /** One turn of the loop keeps `Walked`. */
  lemma WalkStep(snapshot: seq<UploadItem>, before: seq<UploadItem>, after: seq<UploadItem>,
                 i: nat, successes: nat, errors: nat, ok: bool)
    requires Walked(snapshot, before, i, successes, errors) && i < |snapshot|
    requires |after| == |before| && after == before[i := after[i]] && Settled(before[i], after[i])
    requires ok <==> after[i].status == Success
    ensures Walked(snapshot, after, i + 1, if ok then successes + 1 else successes, if ok then errors else errors + 1)
  {
    assert after[..i + 1] == before[..i] + [after[i]];
    CountSnoc(before[..i], after[i], Success);
    CountSnoc(before[..i], after[i], Status.Failed);
  }

  /** The list and the backend log as upload-all leaves them. */
  datatype Walk = Walk(items: seq<UploadItem>, log: seq<Call>)

  /** `uploadSingleItem` as a function of the item and the log, for a fixed
      price parser and backend. */
  function AttemptWith(parseCents: string -> Rounded, hasActor: bool, respond: (seq<Call>, Call) -> Reply)
    : (UploadItem, seq<Call>) -> AttemptRun
  {
    (item: UploadItem, log: seq<Call>) => Attempt(item, parseCents, hasActor, respond, log)
  }

  /** Upload-all over the first `n` positions of the list as it stood when
      the button was pressed: a successful item is skipped, any other item
      gets one attempt on the log as the earlier attempts left it. */
  function WalkTo(snapshot: seq<UploadItem>, attempt: (UploadItem, seq<Call>) -> AttemptRun,
                  log: seq<Call>, n: nat): (w: Walk)
    requires n <= |snapshot|
    ensures |w.items| == |snapshot|
  {
    if n == 0 then Walk(snapshot, log)
    else
      var w := WalkTo(snapshot, attempt, log, n - 1);
      if snapshot[n - 1].status == Success then w
      else
        var run := attempt(snapshot[n - 1], w.log);
        Walk(w.items[n - 1 := ApplyAll(snapshot[n - 1], run.patches)], w.log + run.calls)
  }

  /** Later turns leave an earlier turn's item alone and only add to the log;
      positions not yet reached are still the snapshot's. */
  lemma {:induction false} WalkFrozen(snapshot: seq<UploadItem>, attempt: (UploadItem, seq<Call>) -> AttemptRun,
                                      log: seq<Call>, n: nat, m: nat)
    requires n <= m <= |snapshot|
    ensures var a, b := WalkTo(snapshot, attempt, log, n), WalkTo(snapshot, attempt, log, m);
            a.log <= b.log
            && (forall i :: 0 <= i < n ==> b.items[i] == a.items[i])
            && (forall j :: m <= j < |snapshot| ==> b.items[j] == snapshot[j])
    decreases m
  {
    if m == 0 {
    } else if n == m {
      WalkFrozen(snapshot, attempt, log, 0, m - 1);
    } else {
      WalkFrozen(snapshot, attempt, log, n, m - 1);
    }
  }

  /** One turn of upload-all extends the walk by one position. */
  lemma WalkToStep(snapshot: seq<UploadItem>, attempt: (UploadItem, seq<Call>) -> AttemptRun,
                   log: seq<Call>, i: nat, before: Walk, after: Walk)
    requires i < |snapshot| && before == WalkTo(snapshot, attempt, log, i)
    requires snapshot[i].status == Success ==> after == before
    requires snapshot[i].status != Success ==>
               var run := attempt(snapshot[i], before.log);
               after == Walk(before.items[i := ApplyAll(snapshot[i], run.patches)], before.log + run.calls)
    ensures after == WalkTo(snapshot, attempt, log, i + 1)
  {
  }

  /** Where upload-all leaves item `i` and the log, for any attempt function. */
  lemma WalkItem(snapshot: seq<UploadItem>, attempt: (UploadItem, seq<Call>) -> AttemptRun, log: seq<Call>, i: nat)
    requires i < |snapshot|
    ensures var before := WalkTo(snapshot, attempt, log, i).log;
            var after := WalkTo(snapshot, attempt, log, i + 1).log;
            var last := WalkTo(snapshot, attempt, log, |snapshot|);
            log <= before && after <= last.log
            && (snapshot[i].status == Success ==> last.items[i] == snapshot[i] && after == before)
            && (snapshot[i].status != Success ==>
                  last.items[i] == ApplyAll(snapshot[i], attempt(snapshot[i], before).patches)
                  && after == before + attempt(snapshot[i], before).calls)
  {
    WalkFrozen(snapshot, attempt, log, 0, i);
    WalkFrozen(snapshot, attempt, log, i + 1, |snapshot|);
  }

  /** What upload-all does to each item: a successful one stays as it was;
      any other ends as its own attempt leaves it, that attempt running on
      the log as it stood after the earlier items, and it ends in success
      exactly when that attempt resolved. */
  lemma UploadAllItem(snapshot: seq<UploadItem>, parseCents: string -> Rounded, hasActor: bool,
                      respond: (seq<Call>, Call) -> Reply, log: seq<Call>, i: nat)
    requires i < |snapshot|
    ensures var attempt := AttemptWith(parseCents, hasActor, respond);
            var before := WalkTo(snapshot, attempt, log, i).log;
            var after := WalkTo(snapshot, attempt, log, i + 1).log;
            var last := WalkTo(snapshot, attempt, log, |snapshot|);
            var run := Attempt(snapshot[i], parseCents, hasActor, respond, before);
            log <= before && after <= last.log
            && (snapshot[i].status == Success ==> last.items[i] == snapshot[i] && after == before)
            && (snapshot[i].status != Success ==>
                  last.items[i] == ApplyAll(snapshot[i], run.patches) && after == before + run.calls
                  && (last.items[i].status == Success <==> run.outcome.Ok?))
  {
    var attempt := AttemptWith(parseCents, hasActor, respond);
    WalkItem(snapshot, attempt, log, i);
    var before := WalkTo(snapshot, attempt, log, i).log;
    assert attempt(snapshot[i], before) == Attempt(snapshot[i], parseCents, hasActor, respond, before);
    AttemptCheckpoints(snapshot[i], parseCents, hasActor, respond, before);
  }

  /** With nothing left to upload, upload-all changes no item and makes no
      backend call. */
  lemma {:induction false} UploadAllIdleWhenDone(snapshot: seq<UploadItem>, attempt: (UploadItem, seq<Call>) -> AttemptRun,
                                                 log: seq<Call>, n: nat)
    requires n <= |snapshot| && Unfinished(snapshot, n) == []
    ensures WalkTo(snapshot, attempt, log, n) == Walk(snapshot, log)
  {
    if n > 0 {
      assert snapshot[n - 1].status == Success;
      UploadAllIdleWhenDone(snapshot, attempt, log, n - 1);
    }
  }

  // -------------------------------------------------------------- the page

  class UploadPage {
    const actor: Actor?
    /** `Math.round(parseFloat(price) * 100)` */
    const parseCents: string -> Rounded
    var files: seq<File>
    var items: seq<UploadItem>
    var isUploading: bool
    /** Every `updateItem` the page has made, in order. */
    ghost var updates: seq<(int, Patch)>
    /** The position of every `uploadSingleItem` call, in order. */
    ghost var attempts: seq<nat>

    constructor (actor: Actor?, parseCents: string -> Rounded)
      ensures this.actor == actor && this.parseCents == parseCents
      ensures files == [] && items == [] && !isUploading && updates == [] && attempts == []
    {
      this.actor := actor;
      this.parseCents := parseCents;
      files := [];
      items := [];
      isUploading := false;
      updates := [];
      attempts := [];
    }

    /** The backend's oracle and its call log (none without an actor). */
    function Respond(): (seq<Call>, Call) -> Reply {
      if actor == null then (l: seq<Call>, c: Call) => Resolved("") else actor.respond
    }

    function Log(): seq<Call>
      reads actor
    {
      if actor == null then [] else actor.calls
    }

    /** `handleFileSelect` */
    method HandleFileSelect(selected: seq<File>)
      modifies this
      ensures files == selected && items == InitialItems(selected)
      ensures isUploading == old(isUploading) && updates == old(updates) && attempts == old(attempts)
    {
      files := selected;
      items := InitialItems(selected);
    }

    /** `updateItem` */
    method UpdateItemAt(index: int, p: Patch)
      modifies this
      ensures items == UpdateItem(old(items), index, p) && updates == old(updates) + [(index, p)]
      ensures files == old(files) && isUploading == old(isUploading) && attempts == old(attempts)
    {
      items := UpdateItem(items, index, p);
      updates := updates + [(index, p)];
    }

    /** Partway through an attempt on position `index`: the item there is
        the snapshot with `done` applied, and those patches were logged. */
    ghost predicate Partway(index: nat, item: UploadItem, done: seq<Patch>, items0: seq<UploadItem>, updates0: seq<(int, Patch)>)
      reads this
    {
      index < |items0| && items == items0[index := ApplyAll(item, done)] && updates == updates0 + Tagged(index, done)
    }

    /** One `updateItem` step of an attempt. */
    method Advance(index: nat, p: Patch, ghost item: UploadItem, ghost done: seq<Patch>,
                   ghost items0: seq<UploadItem>, ghost updates0: seq<(int, Patch)>)
      requires Partway(index, item, done, items0, updates0)
      modifies this
      ensures Partway(index, item, done + [p], items0, updates0)
      ensures files == old(files) && isUploading == old(isUploading) && attempts == old(attempts)
    {
      UpdateItemAt(index, p);
      ApplyAllSnoc(item, done, p);
      TaggedSnoc(index, done, p);
    }

    /** The create-item mutation through this page's actor. */
    method CreateListing(p: CreateItemParams) returns (created: Result<string, Thrown>)
      modifies actor
      ensures var run := CreateItemOutcome(actor != null, Respond(), old(Log()), p);
              created == run.result && Log() == old(Log()) + run.calls
    {
      created := CreateItemMutation(actor, p);
    }

    /** An attempt on position `index` has finished as `run` says: its
        calls were made, its patches applied to the snapshot and logged. */
    ghost predicate Finished(index: nat, item: UploadItem, run: AttemptRun,
                             items0: seq<UploadItem>, updates0: seq<(int, Patch)>, log0: seq<Call>)
      reads this, actor
    {
      index < |items0| && Log() == log0 + run.calls && items == items0[index := ApplyAll(item, run.patches)]
      && updates == updates0 + Tagged(index, run.patches)
    }

    /** `uploadSingleItem(items[index], index)` */
    method UploadSingleItem(index: nat) returns (outcome: Result<(), Thrown>)
      requires index < |items|
      modifies this, actor
      ensures var run := Attempt(old(items[index]), parseCents, actor != null, Respond(), old(Log()));
              outcome == run.outcome
              && Finished(index, old(items[index]), run, old(items), old(updates), old(Log()))
      ensures attempts == old(attempts) + [index]
      ensures files == old(files) && isUploading == old(isUploading)
    {
      var item := items[index];
      ghost var items0, updates0, log := items, updates, Log();
      attempts := attempts + [index];
      assert Partway(index, item, [], items0, updates0);
      Advance(index, StartPatch, item, [], items0, updates0);
      var price := parseCents(item.price);
      if !PassesPriceCheck(price) {
        outcome := Err(Error("Invalid price"));
        Advance(index, FailurePatch(outcome.error), item, [StartPatch], items0, updates0);
        assert [StartPatch] + [FailurePatch(outcome.error)] == [StartPatch, FailurePatch(outcome.error)];
        assert Attempt(item, parseCents, actor != null, Respond(), log)
            == AttemptRun([StartPatch, FailurePatch(outcome.error)], false, [], outcome);
      } else {
        outcome := UploadPriced(index, item, price, items0, updates0);
        assert Attempt(item, parseCents, actor != null, Respond(), log)
            == AttemptPriced(item, price, actor != null, Respond(), log);
      }
    }

    /** The attempt past the price check: read the file, then create. */
    method UploadPriced(index: nat, item: UploadItem, price: Rounded,
                        ghost items0: seq<UploadItem>, ghost updates0: seq<(int, Patch)>)
      returns (outcome: Result<(), Thrown>)
      requires Partway(index, item, [StartPatch], items0, updates0)
      modifies this, actor
      ensures var run := AttemptPriced(item, price, actor != null, Respond(), old(Log()));
              outcome == run.outcome && Finished(index, item, run, items0, updates0, old(Log()))
      ensures files == old(files) && isUploading == old(isUploading) && attempts == old(attempts)
    {
      ghost var log := Log();
      Advance(index, ProgressPatch(20), item, [StartPatch], items0, updates0);
      var read := ReadOutcome(item.file.read);
      if read.Err? {
        outcome := Err(read.error);
        Advance(index, FailurePatch(outcome.error), item, [StartPatch] + [ProgressPatch(20)], items0, updates0);
        assert [StartPatch] + [ProgressPatch(20)] + [FailurePatch(outcome.error)]
            == [StartPatch, ProgressPatch(20), FailurePatch(outcome.error)];
        assert AttemptPriced(item, price, actor != null, Respond(), log)
            == AttemptRun([StartPatch, ProgressPatch(20), FailurePatch(outcome.error)], true, [], outcome);
      } else {
        outcome := UploadRead(index, item, price, read.value, items0, updates0);
        assert AttemptPriced(item, price, actor != null, Respond(), log)
            == AfterRead(item, price, read.value, actor != null, Respond(), log);
      }
    }

    /** The attempt once the file was read: the price goes through `BigInt`,
        then the create-item mutation. */
    method UploadRead(index: nat, item: UploadItem, price: Rounded, blob: seq<byte>,
                      ghost items0: seq<UploadItem>, ghost updates0: seq<(int, Patch)>)
      returns (outcome: Result<(), Thrown>)
      requires Partway(index, item, [StartPatch] + [ProgressPatch(20)], items0, updates0)
      modifies this, actor
      ensures var run := AfterRead(item, price, blob, actor != null, Respond(), old(Log()));
              outcome == run.outcome && Finished(index, item, run, items0, updates0, old(Log()))
      ensures files == old(files) && isUploading == old(isUploading) && attempts == old(attempts)
    {
      ghost var done := [StartPatch] + [ProgressPatch(20)];
      Advance(index, ProgressPatch(40), item, done, items0, updates0);
      done := done + [ProgressPatch(40)];
      assert done == [StartPatch, ProgressPatch(20), ProgressPatch(40)];
      if price.Cents? {
        outcome := UploadCreate(index, item, price.cents, blob, items0, updates0);
      } else {
        outcome := Err(NotAnInteger);
        Advance(index, FailurePatch(outcome.error), item, done, items0, updates0);
        assert done + [FailurePatch(outcome.error)] == AfterRead(item, price, blob, actor != null, Respond(), Log()).patches;
      }
    }

    /** The create-item mutation, once the price converted to a `BigInt`. */
    method UploadCreate(index: nat, item: UploadItem, cents: int, blob: seq<byte>,
                        ghost items0: seq<UploadItem>, ghost updates0: seq<(int, Patch)>)
      returns (outcome: Result<(), Thrown>)
      requires Partway(index, item, [StartPatch, ProgressPatch(20), ProgressPatch(40)], items0, updates0)
      modifies this, actor
      ensures var run := Created(CreateItemOutcome(actor != null, Respond(), old(Log()),
                                   CreateItemParams(item.title, item.description, cents, item.itemType, blob)));
              outcome == run.outcome && Finished(index, item, run, items0, updates0, old(Log()))
      ensures files == old(files) && isUploading == old(isUploading) && attempts == old(attempts)
    {
      ghost var done := [StartPatch, ProgressPatch(20), ProgressPatch(40)];
      ghost var log := Log();
      var p := CreateItemParams(item.title, item.description, cents, item.itemType, blob);
      var created := CreateListing(p);
      ghost var run := Created(CreateItemOutcome(actor != null, Respond(), log, p));
      if created.Err? {
        outcome := Err(created.error);
        Advance(index, FailurePatch(outcome.error), item, done, items0, updates0);
        assert done + [FailurePatch(outcome.error)] == run.patches;
      } else {
        outcome := Ok(());
        Advance(index, SuccessPatch, item, done, items0, updates0);
        assert done + [SuccessPatch] == run.patches;
      }
    }

    /** One turn of upload-all's loop: a successful item is counted as it
        is, any other item is attempted and ends in success or error. */
    method Visit(i: nat) returns (succeeded: bool)
      requires i < |items|
      modifies this, actor
      ensures |items| == |old(items)| && items == old(items)[i := items[i]] && Settled(old(items)[i], items[i])
      ensures succeeded <==> items[i].status == Success
      ensures attempts == old(attempts) + (if old(items)[i].status != Success then [i] else [])
      ensures files == old(files) && isUploading == old(isUploading)
      ensures old(items)[i].status == Success ==> items == old(items) && Log() == old(Log())
      ensures old(items)[i].status != Success ==>
                var run := Attempt(old(items)[i], parseCents, actor != null, Respond(), old(Log()));
                items[i] == ApplyAll(old(items)[i], run.patches) && Log() == old(Log()) + run.calls
                && (succeeded <==> run.outcome.Ok?)
    {
      if items[i].status == Success {
        return true;
      }
      AttemptCheckpoints(items[i], parseCents, actor != null, Respond(), Log());
      var outcome := UploadSingleItem(i);
      succeeded := outcome.Ok?;
    }

    /** Upload-all after `i` turns over `snapshot`, started with the attempt
        log `attempts0` and the backend log `log0`. */
    ghost predicate Walking(snapshot: seq<UploadItem>, attempts0: seq<nat>, log0: seq<Call>,
                            i: nat, successCount: nat, errorCount: nat)
      reads this, actor
    {
      i <= |snapshot|
      && Walked(snapshot, items, i, successCount, errorCount)
      && attempts == attempts0 + Unfinished(snapshot, i)
      && Walk(items, Log()) == WalkTo(snapshot, AttemptWith(parseCents, actor != null, Respond()), log0, i)
    }

    /** One turn of upload-all's loop, with its bookkeeping. */
    method UploadAllTurn(snapshot: seq<UploadItem>, i: nat, successCount: nat, errorCount: nat,
                         ghost attempts0: seq<nat>, ghost log0: seq<Call>)
      returns (successCount': nat, errorCount': nat)
      requires i < |snapshot| && Walking(snapshot, attempts0, log0, i, successCount, errorCount)
      modifies this, actor
      ensures Walking(snapshot, attempts0, log0, i + 1, successCount', errorCount')
      ensures files == old(files) && isUploading == old(isUploading)
    {
      ghost var before, attemptsBefore, logBefore := items, attempts, Log();
      var ok := Visit(i);
      ghost var attempt := AttemptWith(parseCents, actor != null, Respond());
      assert attempt(snapshot[i], logBefore) == Attempt(snapshot[i], parseCents, actor != null, Respond(), logBefore);
      WalkToStep(snapshot, attempt, log0, i, Walk(before, logBefore), Walk(items, Log()));
      UnfinishedStep(snapshot, i, attempts0, attemptsBefore, attempts);
      WalkStep(snapshot, before, items, i, successCount, errorCount, ok);
      if ok {
        successCount', errorCount' := successCount + 1, errorCount;
      } else {
        successCount', errorCount' := successCount, errorCount + 1;
      }
    }

    /** The loop of upload-all, from the first position to the last. */
    method UploadAllLoop(snapshot: seq<UploadItem>, ghost attempts0: seq<nat>, ghost log0: seq<Call>)
      returns (successCount: nat, errorCount: nat)
      requires Walking(snapshot, attempts0, log0, 0, 0, 0)
      modifies this, actor
      ensures Walking(snapshot, attempts0, log0, |snapshot|, successCount, errorCount)
      ensures files == old(files) && isUploading == old(isUploading)
    {
      successCount, errorCount := 0, 0;
      var i := 0;
      while i < |snapshot|
        invariant Walking(snapshot, attempts0, log0, i, successCount, errorCount)
        invariant files == old(files) && isUploading == old(isUploading)
      {
        successCount, errorCount := UploadAllTurn(snapshot, i, successCount, errorCount, attempts0, log0);
        i := i + 1;
      }
    }

    /** `handleUploadAll`: walks the list as it stood when the button was
        pressed, in index order; successful items are counted and skipped,
        every other item is attempted once, and a failure moves on to the
        next item. */
    method HandleUploadAll() returns (successCount: nat, errorCount: nat, notice: Notice)
      modifies this, actor
      ensures |items| == |old(items)| && !isUploading && files == old(files)
      ensures attempts == old(attempts) + Unfinished(old(items), |old(items)|)
      ensures forall i :: 0 <= i < |items| ==> Settled(old(items)[i], items[i])
      ensures successCount == CountStatus(items, Success) && errorCount == CountStatus(items, Status.Failed)
      ensures successCount + errorCount == |items|
      ensures notice == NoticeFor(successCount, errorCount)
      ensures Walk(items, Log()) == WalkTo(old(items), AttemptWith(parseCents, actor != null, Respond()), old(Log()), |old(items)|)
    {
      isUploading := true;
      var snapshot := items;
      ghost var log0, attempts0 := Log(), attempts;
      assert items[..0] == [];
      assert Walking(snapshot, attempts0, log0, 0, 0, 0);
      successCount, errorCount := UploadAllLoop(snapshot, attempts0, log0);
      WalkedAll(snapshot, items, successCount, errorCount);
      isUploading := false;
      notice := NoticeFor(successCount, errorCount);
    }

    /** `handleRetryItem`: only a failed item is attempted again, and the
        toast names it by the title it had when the retry began. */
    method HandleRetryItem(index: nat) returns (outcome: Option<Result<(), Thrown>>, toast: Option<Toast>)
      requires index < |items|
      modifies this, actor
      ensures old(items[index]).status != Status.Failed ==>
                outcome == None && toast == None && items == old(items) && updates == old(updates)
                && attempts == old(attempts) && Log() == old(Log())
      ensures old(items[index]).status == Status.Failed ==>
                var run := Attempt(old(items[index]), parseCents, actor != null, Respond(), old(Log()));
                outcome == Some(run.outcome) && toast == Some(RetryToast(old(items[index]).title, run.outcome))
                && Log() == old(Log()) + run.calls
                && items == old(items)[index := ApplyAll(old(items[index]), run.patches)]
                && attempts == old(attempts) + [index]
      ensures files == old(files) && isUploading == old(isUploading)
    {
      var item := items[index];
      if item.status != Status.Failed {
        return None, None;
      }
      var r := UploadSingleItem(index);
      outcome := Some(r);
      toast := Some(RetryToast(item.title, r));
    }
  }
}
