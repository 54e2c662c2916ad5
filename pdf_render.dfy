/**
 * The PDF preview's page-render coordinator. `renderPage` serialises drawing with a
 * rendering flag and a single pending-page slot; `loadPDF` loads the document, records it in
 * the content cache and renders the current page; `cleanup` cancels the current draw.
 *
 * The two PDF previews (the stand-alone component and the copy declared inside the document
 * preview) run the same code with two differences: the cache key, and the `loading` flag,
 * which the inline copy shares with the enclosing preview instead of owning it. Both are
 * parameters of the viewer.
 *
 * Every `await` is an event delivered later by the environment: the document arriving from
 * the loader, a page arriving, a draw finishing, or any of these failing. A call chain that
 * is suspended at an `await` is a `Chain`; chains are numbered in the order they start and
 * are never forgotten, so an event names the chain it resumes.
 */
module PdfRender {
  import opened Wrappers
  import opened JsString
  import opened DocumentModel
  import opened ContentCache
  import Base64

  const CancelledName: string := "RenderingCancelledException"
  const WorkerMessage: string :=
    "Failed to initialize PDF worker. Please check your network connection and try again."
  const InvalidMessage: string :=
    "Invalid PDF file format. The file may be corrupted or not a valid PDF."
  const DetachedMessage: string :=
    "PDF data has been detached. This usually happens when the same data is used multiple times. Please try again."
  const CanvasMessage: string :=
    "Cannot render PDF on canvas. This usually happens when trying to render multiple pages simultaneously. Please try again."

  /** The substrings the load-error classifier looks for, in order, with the message for each. */
  const LoadErrorTable: seq<(string, string)> := [
    ("worker", WorkerMessage),
    ("Invalid PDF", InvalidMessage),
    ("detached", DetachedMessage),
    ("canvas", CanvasMessage)
  ]

  /** A thrown value: its `name` and its `message` (`None` when it has none). */
  datatype JsError = JsError(name: string, message: Option<string>)

  /** `(err as Error).message || 'Unknown error'`. */
  function MessageOf(err: JsError): (r: string)
    ensures r != ""
    ensures Truthy(err.message) ==> r == err.message.value
  {
    if Truthy(err.message) then err.message.value else "Unknown error"
  }

  /** The message `loadPDF` shows for a failure that is not a cancellation. */
  function LoadErrorMessage(err: JsError): string {
    var m := MessageOf(err);
    if Includes(m, "worker") then WorkerMessage
    else if Includes(m, "Invalid PDF") then InvalidMessage
    else if Includes(m, "detached") then DetachedMessage
    else if Includes(m, "canvas") then CanvasMessage
    else "Failed to load PDF: " + m
  }

  /** Who started a chain: `loadPDF`, or the page-change effect. */
  datatype Origin = FromLoad | FromPageEffect

  /** Where a chain is suspended. `AwaitingDocument` keeps the page number `loadPDF` captured. */
  datatype Phase =
    | AwaitingDocument(page: int)
    | AwaitingPage(page: int)
    | AwaitingDraw(page: int, cancelled: bool)
    | Done

  datatype Chain = Chain(origin: Origin, phase: Phase)

  /** The viewer's state and refs; `drawn` lists the pages whose drawing completed. */
  datatype PdfState = PdfState(
    numPages: Option<int>,
    pageNumber: int,
    pdfError: Option<string>,
    loading: bool,
    pdf: Option<int>,
    isRendering: bool,
    pending: Option<int>,
    renderTask: Option<nat>,
    page: Option<int>,
    chains: seq<Chain>,
    drawn: seq<int>)

  const Initial: PdfState := PdfState(None, 1, None, false, None, false, None, None, None, [], [])

  /** The refs always name an existing chain, and a pending page is only kept while rendering. */
  predicate Inv(st: PdfState) {
    && (st.renderTask.Some? ==> st.renderTask.value < |st.chains|)
    && (st.pending.Some? ==> st.isRendering)
  }

  function SetPhase(st: PdfState, i: nat, ph: Phase): (r: PdfState)
    requires i < |st.chains|
    ensures |r.chains| == |st.chains|
  {
    st.(chains := st.chains[i := st.chains[i].(phase := ph)])
  }

  /** `renderTaskRef.current.cancel()`: the draw being awaited will be rejected. */
  function CancelTask(st: PdfState): (r: PdfState)
    requires Inv(st)
    ensures r.renderTask == None && |r.chains| == |st.chains|
    ensures r.(chains := st.chains, renderTask := st.renderTask) == st
  {
    if st.renderTask.None? then st
    else
      var j := st.renderTask.value;
      var st1 := st.(renderTask := None);
      match st.chains[j].phase
      case AwaitingDraw(p, _) => SetPhase(st1, j, AwaitingDraw(p, true))
      case _ => st1
  }

  /** A chain's `renderPage` call has returned to its caller. */
  function Complete(st: PdfState, i: nat): (r: PdfState)
    requires i < |st.chains|
    ensures |r.chains| == |st.chains|
  {
    var st1 := SetPhase(st, i, Done);
    if st.chains[i].origin == FromLoad then st1.(loading := false) else st1
  }

  /** `renderPage(pdf, p)` run by chain `i` up to its first `await`. */
  function StartRender(st: PdfState, i: nat, p: int): (r: PdfState)
    requires Inv(st) && i < |st.chains|
    ensures Inv(r) && |r.chains| == |st.chains|
  {
    if st.isRendering then Complete(st.(pending := Some(p)), i)
    else SetPhase(CancelTask(st.(isRendering := true, pending := None)), i, AwaitingPage(p))
  }

  /** The end of a draw (or of a page with no canvas): take a pending page, if any. */
  function FinishDraw(st: PdfState, i: nat): (r: PdfState)
    requires Inv(st) && i < |st.chains|
    ensures Inv(r) && |r.chains| == |st.chains|
  {
    var st1 := st.(isRendering := false);
    if st1.pending.Some? then StartRender(st1.(pending := None), i, st1.pending.value)
    else Complete(st1, i)
  }

  /** `cleanup()`. */
  function Cleanup(st: PdfState): (r: PdfState)
    requires Inv(st)
    ensures Inv(r) && |r.chains| == |st.chains|
  {
    CancelTask(st).(page := None, isRendering := false, pending := None)
  }

  /** The synchronous part of `loadPDF`: reset, clean up, and wait for the document. */
  function LoadStart(st: PdfState): (r: PdfState)
    requires Inv(st)
    ensures Inv(r) && |r.chains| == |st.chains| + 1
  {
    var st1 := Cleanup(st.(loading := true, pdfError := None));
    st1.(chains := st1.chains + [Chain(FromLoad, AwaitingDocument(st.pageNumber))])
  }

  /** The document of `n` pages arrives for chain `i`, which goes on to render its page. */
  function DocumentLoaded(st: PdfState, i: nat, n: int): (r: PdfState)
    requires Inv(st)
    ensures Inv(r) && |r.chains| == |st.chains|
  {
    if i < |st.chains| && st.chains[i].phase.AwaitingDocument? then
      StartRender(st.(pdf := Some(n), numPages := Some(n)), i, st.chains[i].phase.page)
    else st
  }

  /** The page-change effect: render the current page once a document is loaded. */
  function PageEffect(st: PdfState): (r: PdfState)
    requires Inv(st)
    ensures Inv(r)
  {
    if st.pdf.Some? && !st.loading then
      var st1 := st.(chains := st.chains + [Chain(FromPageEffect, Done)]);
      StartRender(st1, |st.chains|, st.pageNumber)
    else st
  }

  /** The page chain `i` asked for arrives; with no canvas (or context) nothing is drawn. */
  function PageLoaded(st: PdfState, i: nat, canvasReady: bool): (r: PdfState)
    requires Inv(st)
    ensures Inv(r) && |r.chains| == |st.chains|
  {
    if i < |st.chains| && st.chains[i].phase.AwaitingPage? then
      var p := st.chains[i].phase.page;
      var st1 := st.(page := Some(p));
      if canvasReady then SetPhase(st1.(renderTask := Some(i)), i, AwaitingDraw(p, false))
      else FinishDraw(st1, i)
    else st
  }

  /** The draw chain `i` awaits completes. A cancelled draw never completes; it is rejected. */
  function DrawDone(st: PdfState, i: nat): (r: PdfState)
    requires Inv(st)
    ensures Inv(r) && |r.chains| == |st.chains|
  {
    if i < |st.chains| && st.chains[i].phase.AwaitingDraw? && !st.chains[i].phase.cancelled then
      var p := st.chains[i].phase.page;
      FinishDraw(st.(renderTask := None, drawn := st.drawn + [p]), i)
    else st
  }

  /** The `await` chain `i` is suspended at rejects with `err`. */
  function Fail(st: PdfState, i: nat, err: JsError): (r: PdfState)
    requires Inv(st)
    ensures Inv(r) && |r.chains| == |st.chains|
  {
    if i < |st.chains| && !st.chains[i].phase.Done? then
      var inRender := !st.chains[i].phase.AwaitingDocument?;
      var st1 := if inRender then st.(isRendering := false, pending := None) else st;
      var st2 := SetPhase(st1, i, Done);
      if err.name == CancelledName then st2
      else if st.chains[i].origin == FromLoad then
        st2.(pdfError := Some(LoadErrorMessage(err)), isRendering := false, pending := None, loading := false)
      else st2.(pdfError := Some("Failed to render page: " + MessageOf(err)))
    else st
  }

  /** `navigatePage(n)`. */
  function Navigate(st: PdfState, n: int): (r: PdfState)
    ensures r.pageNumber == (if 1 <= n <= st.numPages.GetOr(0) then n else st.pageNumber)
    ensures r.(pageNumber := st.pageNumber) == st
  {
    if n >= 1 && n <= st.numPages.GetOr(0) then st.(pageNumber := n) else st
  }

  /** What the environment and the user can do. */
  datatype Event =
    | Load
    | DocumentArrives(chain: nat, pages: int)
    | PageChange
    | PageArrives(chain: nat, canvasReady: bool)
    | DrawCompletes(chain: nat)
    | Rejects(chain: nat, err: JsError)
    | EffectCleanup
    | Unmount
    | NavigateTo(page: int)

  function Step(st: PdfState, e: Event): (r: PdfState)
    requires Inv(st)
    ensures Inv(r)
  {
    match e
    case Load => LoadStart(st)
    case DocumentArrives(i, n) => DocumentLoaded(st, i, n)
    case PageChange => PageEffect(st)
    case PageArrives(i, ready) => PageLoaded(st, i, ready)
    case DrawCompletes(i) => DrawDone(st, i)
    case Rejects(i, err) => Fail(st, i, err)
    case EffectCleanup => Cleanup(st)
    case Unmount => Cleanup(st).(pdf := None)
    case NavigateTo(n) => Navigate(st, n)
  }

  function Run(st: PdfState, es: seq<Event>): (r: PdfState)
    requires Inv(st)
    ensures Inv(r)
    decreases |es|
  {
    if es == [] then st else Run(Step(st, es[0]), es[1..])
  }

  // ---------------------------------------------------------------------------------------
  // The viewer object

  class PdfViewer {
    /** The key `loadPDF` stores the document under: `'pdf-document'`, or the document id. */
    const cacheKey: string
    var numPages: Option<int>
    var pageNumber: int
    var pdfError: Option<string>
    var loading: bool
    var pdf: Option<int>
    var isRendering: bool
    var pending: Option<int>
    var renderTask: Option<nat>
    var page: Option<int>
    var chains: seq<Chain>
    var drawn: seq<int>

    ghost function State(): PdfState
      reads this
    {
      PdfState(numPages, pageNumber, pdfError, loading, pdf, isRendering, pending, renderTask,
               page, chains, drawn)
    }

    ghost predicate Valid()
      reads this
    {
      Inv(State())
    }

    /** A mounted viewer. The stand-alone preview owns its `loading` flag and starts it at
     *  `false`; the inline one reads and writes the enclosing preview's flag, so it starts with
     *  whatever that flag holds when it is mounted. */
    constructor (cacheKey: string, loading: bool)
      ensures Valid() && State() == Initial.(loading := loading) && this.cacheKey == cacheKey
    {
      this.cacheKey := cacheKey;
      numPages := None;
      pageNumber := 1;
      pdfError := None;
      this.loading := loading;
      pdf := None;
      isRendering := false;
      pending := None;
      renderTask := None;
      page := None;
      chains := [];
      drawn := [];
    }

    method CancelRenderTask()
      requires Valid()
      modifies this
      ensures State() == CancelTask(old(State()))
    {
      if renderTask.Some? {
        var j := renderTask.value;
        match chains[j].phase {
          case AwaitingDraw(p, _) =>
            chains := chains[j := chains[j].(phase := AwaitingDraw(p, true))];
          case _ =>
        }
        renderTask := None;
      }
    }

    method CompleteChain(i: nat)
      requires i < |chains|
      modifies this
      ensures State() == Complete(old(State()), i)
    {
      var origin := chains[i].origin;
      chains := chains[i := chains[i].(phase := Done)];
      if origin == FromLoad {
        loading := false;
      }
    }

    /** `renderPage(pdf, p)` for chain `i`, up to its first `await`. */
    method RenderPage(i: nat, p: int)
      requires Valid() && i < |chains|
      modifies this
      ensures Valid()
      ensures State() == StartRender(old(State()), i, p)
    {
      if isRendering {
        pending := Some(p);
        CompleteChain(i);
        return;
      }
      isRendering := true;
      pending := None;
      CancelRenderTask();
      chains := chains[i := chains[i].(phase := AwaitingPage(p))];
    }

    method FinishDrawing(i: nat)
      requires Valid() && i < |chains|
      modifies this
      ensures Valid()
      ensures State() == FinishDraw(old(State()), i)
    {
      isRendering := false;
      var next := pending;
      if next.Some? {
        pending := None;
        RenderPage(i, next.value);
      } else {
        CompleteChain(i);
      }
    }

    method CleanupRefs()
      requires Valid()
      modifies this
      ensures Valid()
      ensures State() == Cleanup(old(State()))
    {
      CancelRenderTask();
      page := None;
      isRendering := false;
      pending := None;
    }

    /** `loadPDF` up to its first `await`, including the cache write of the original data. */
    method LoadPdf(data: seq<Base64.Octet>, cache: DocumentCache, now: int)
      requires Valid() && cache.Valid()
      modifies this, cache
      ensures Valid() && cache.Valid()
      ensures State() == LoadStart(old(State()))
      ensures cache.State() == AfterSet(old(cache.State()), cacheKey, Bytes(data), now)
    {
      var captured := pageNumber;
      loading := true;
      pdfError := None;
      CleanupRefs();
      cache.Set(cacheKey, Bytes(data), now);
      chains := chains + [Chain(FromLoad, AwaitingDocument(captured))];
    }

    method OnDocumentLoaded(i: nat, n: int)
      requires Valid()
      modifies this
      ensures Valid()
      ensures State() == DocumentLoaded(old(State()), i, n)
    {
      if i < |chains| && chains[i].phase.AwaitingDocument? {
        pdf := Some(n);
        numPages := Some(n);
        RenderPage(i, chains[i].phase.page);
      }
    }

    method OnPageChange()
      requires Valid()
      modifies this
      ensures Valid()
      ensures State() == PageEffect(old(State()))
    {
      if pdf.Some? && !loading {
        chains := chains + [Chain(FromPageEffect, Done)];
        RenderPage(|chains| - 1, pageNumber);
      }
    }

    method OnPageLoaded(i: nat, canvasReady: bool)
      requires Valid()
      modifies this
      ensures Valid()
      ensures State() == PageLoaded(old(State()), i, canvasReady)
    {
      if i < |chains| && chains[i].phase.AwaitingPage? {
        var p := chains[i].phase.page;
        page := Some(p);
        if canvasReady {
          renderTask := Some(i);
          chains := chains[i := chains[i].(phase := AwaitingDraw(p, false))];
        } else {
          FinishDrawing(i);
        }
      }
    }

    method OnDrawDone(i: nat)
      requires Valid()
      modifies this
      ensures Valid()
      ensures State() == DrawDone(old(State()), i)
    {
      if i < |chains| && chains[i].phase.AwaitingDraw? && !chains[i].phase.cancelled {
        renderTask := None;
        drawn := drawn + [chains[i].phase.page];
        FinishDrawing(i);
      }
    }

    method OnRejected(i: nat, err: JsError)
      requires Valid()
      modifies this
      ensures Valid()
      ensures State() == Fail(old(State()), i, err)
    {
      if i < |chains| && !chains[i].phase.Done? {
        var origin := chains[i].origin;
        if !chains[i].phase.AwaitingDocument? {
          isRendering := false;
          pending := None;
        }
        chains := chains[i := chains[i].(phase := Done)];
        if err.name == CancelledName {
          return;
        }
        if origin == FromLoad {
          pdfError := Some(LoadErrorMessage(err));
          isRendering := false;
          pending := None;
          loading := false;
        } else {
          pdfError := Some("Failed to render page: " + MessageOf(err));
        }
      }
    }

    method OnUnmount()
      requires Valid()
      modifies this
      ensures Valid()
      ensures State() == Step(old(State()), Unmount)
    {
      CleanupRefs();
      pdf := None;
    }

    method NavigatePage(n: int)
      modifies this
      ensures State() == Navigate(old(State()), n)
    {
      if n >= 1 && n <= numPages.GetOr(0) {
        pageNumber := n;
      }
    }
  }

  // ---------------------------------------------------------------------------------------
  // Properties

  /** A request while a page is being rendered only fills the pending slot (and returns). */
  lemma RequestWhileRenderingOnlyQueues(st: PdfState, i: nat, p: int)
    requires Inv(st) && i < |st.chains| && st.isRendering
    ensures StartRender(st, i, p).pending == Some(p)
    ensures StartRender(st, i, p).isRendering
    ensures StartRender(st, i, p).renderTask == st.renderTask
    ensures StartRender(st, i, p).page == st.page
    ensures StartRender(st, i, p).drawn == st.drawn
    ensures StartRender(st, i, p).chains == st.chains[i := st.chains[i].(phase := Done)]
  {
  }

  /** Of several requests made while rendering, the last one is the one kept. */
  lemma LastRequestWins(st: PdfState, i: nat, j: nat, p: int, q: int)
    requires Inv(st) && i < |st.chains| && j < |st.chains| && st.isRendering
    ensures StartRender(StartRender(st, i, p), j, q).pending == Some(q)
  {
  }

  /** Starting a render sets the flag, clears the pending slot and cancels the current draw. */
  lemma StartRenderCancelsCurrentDraw(st: PdfState, i: nat, p: int)
    requires Inv(st) && i < |st.chains| && !st.isRendering
    ensures StartRender(st, i, p).isRendering
    ensures StartRender(st, i, p).pending == None
    ensures StartRender(st, i, p).renderTask == None
    ensures StartRender(st, i, p).chains[i].phase == AwaitingPage(p)
    ensures forall j :: Some(j) == st.renderTask && j != i && st.chains[j].phase.AwaitingDraw? ==>
              StartRender(st, i, p).chains[j].phase == AwaitingDraw(st.chains[j].phase.page, true)
  {
  }

  /** A failure inside `renderPage` leaves no rendering flag and no pending page. */
  lemma FailureClearsFlags(st: PdfState, i: nat, err: JsError)
    requires Inv(st) && i < |st.chains|
    requires st.chains[i].phase.AwaitingPage? || st.chains[i].phase.AwaitingDraw?
    ensures !Fail(st, i, err).isRendering && Fail(st, i, err).pending == None
    ensures Fail(st, i, err).chains[i].phase == Done
  {
  }

  /** A cancellation never produces an error message, wherever it is caught. */
  lemma CancellationSetsNoError(st: PdfState, i: nat, m: Option<string>)
    requires Inv(st)
    ensures Fail(st, i, JsError(CancelledName, m)).pdfError == st.pdfError
    ensures Fail(st, i, JsError(CancelledName, m)).loading == st.loading
  {
  }

  /** Any other failure is reported: classified for `loadPDF`, prefixed for the page effect. */
  lemma OtherFailuresAreReported(st: PdfState, i: nat, err: JsError)
    requires Inv(st) && i < |st.chains| && !st.chains[i].phase.Done? && err.name != CancelledName
    ensures Fail(st, i, err).pdfError
         == Some(if st.chains[i].origin == FromLoad then LoadErrorMessage(err)
                 else "Failed to render page: " + MessageOf(err))
    ensures st.chains[i].origin == FromLoad ==> !Fail(st, i, err).loading && !Fail(st, i, err).isRendering
  {
  }

  /** `cleanup` leaves no render task, no page, no rendering flag and no pending page. */
  lemma CleanupClearsRefs(st: PdfState)
    requires Inv(st)
    ensures Cleanup(st).renderTask == None && Cleanup(st).page == None
    ensures !Cleanup(st).isRendering && Cleanup(st).pending == None
    ensures Cleanup(st).pdf == st.pdf && Cleanup(st).pdfError == st.pdfError
  {
  }

  /** `navigatePage` moves only to a page between 1 and the page count; before a document is
   *  loaded it never moves. */
  lemma NavigateBounds(st: PdfState, n: int)
    ensures Navigate(st, n).pageNumber != st.pageNumber ==> 1 <= n <= st.numPages.GetOr(0)
    ensures 1 <= n <= st.numPages.GetOr(0) ==> Navigate(st, n).pageNumber == n
    ensures st.numPages.None? ==> Navigate(st, n) == st
  {
  }

  /** The classifier: the first keyword found in the order worker, Invalid PDF, detached, canvas
   *  decides the message; with none found the message is quoted. */
  lemma {:induction false} LoadErrorIsFirstMatch(err: JsError)
    ensures var m, i := MessageOf(err), FirstMatch(LoadErrorTable, MessageOf(err), 0);
            LoadErrorMessage(err) == if i < |LoadErrorTable| then LoadErrorTable[i].1
                                     else "Failed to load PDF: " + m
  {
    var m := MessageOf(err);
    assert FirstMatch(LoadErrorTable, m, 0) == (if Includes(m, "worker") then 0 else FirstMatch(LoadErrorTable, m, 1));
    assert FirstMatch(LoadErrorTable, m, 1) == (if Includes(m, "Invalid PDF") then 1 else FirstMatch(LoadErrorTable, m, 2));
    assert FirstMatch(LoadErrorTable, m, 2) == (if Includes(m, "detached") then 2 else FirstMatch(LoadErrorTable, m, 3));
    assert FirstMatch(LoadErrorTable, m, 3) == (if Includes(m, "canvas") then 3 else FirstMatch(LoadErrorTable, m, 4));
  }

  /** A failure without a message is reported as an unknown error. */
  lemma MissingMessageIsUnknown(name: string, m: Option<string>)
    requires !Truthy(m)
    ensures LoadErrorMessage(JsError(name, m)) == "Failed to load PDF: " + "Unknown error"
  {
    assert MessageOf(JsError(name, m)) == "Unknown error";
    UnknownErrorMatchesNothing("Unknown error");
  }

  lemma UnknownErrorMatchesNothing(u: string)
    requires u == "Unknown error"
    ensures !Includes(u, "worker") && !Includes(u, "Invalid PDF")
    ensures !Includes(u, "detached") && !Includes(u, "canvas")
  {
    LacksChar(u, "Invalid PDF", 'I');
    LacksChar(u, "detached", 'd');
    LacksChar(u, "canvas", 'c');
    UnknownErrorLacksWorker(u);
  }

  lemma LacksChar(u: string, p: string, c: char)
    requires c in p && c !in u
    ensures !Includes(u, p)
  {
    if Includes(u, p) {
      IncludesMember(u, p, c);
    }
  }

  lemma UnknownErrorLacksWorker(u: string)
    requires u == "Unknown error"
    ensures !Includes(u, "worker")
  {
    var w := "worker";
    assert !Includes(u[8..], w);
    assert u[7..][1..] == u[8..] && u[7] != w[0];
    assert !Includes(u[7..], w);
    assert u[6..][1..] == u[7..] && u[6] != w[0];
    assert !Includes(u[6..], w);
    assert u[5..][1..] == u[6..] && u[5..][1] != w[1];
    assert !Includes(u[5..], w);
    assert u[4..][1..] == u[5..] && u[4] != w[0];
    assert !Includes(u[4..], w);
    assert u[3..][1..] == u[4..] && u[3] != w[0];
    assert !Includes(u[3..], w);
    assert u[2..][1..] == u[3..] && u[2] != w[0];
    assert !Includes(u[2..], w);
    assert u[1..][1..] == u[2..] && u[1] != w[0];
    assert !Includes(u[1..], w);
    assert u[0] != w[0];
  }

  /** Running two event sequences one after the other. */
  lemma {:induction false} RunAppend(st: PdfState, a: seq<Event>, b: seq<Event>)
    requires Inv(st)
    ensures Run(st, a + b) == Run(Run(st, a), b)
    decreases |a|
  {
    if a == [] {
      assert a + b == b;
    } else {
      assert (a + b)[0] == a[0] && (a + b)[1..] == a[1..] + b;
      RunAppend(Step(st, a[0]), a[1..], b);
    }
  }

  /** The page effect with nothing being drawn starts drawing the current page. */
  lemma FirstRequestStarts(st: PdfState)
    requires Inv(st) && st.pdf.Some? && !st.loading && !st.isRendering && st.renderTask.None?
    ensures var r, a := Run(st, [PageChange]), |st.chains|;
            && |r.chains| == a + 1 && r.chains[a] == Chain(FromPageEffect, AwaitingPage(st.pageNumber))
            && r.isRendering && r.pending.None? && r.renderTask.None? && r.drawn == st.drawn
            && r.pdf == st.pdf && !r.loading && r.numPages == st.numPages
  {
    assert Run(st, [PageChange]) == Run(Step(st, PageChange), []);
  }

  /** Navigating and firing the page effect while a page is being drawn queues the new page
   *  and touches neither the chain doing the drawing nor the drawn pages. */
  lemma RequestWhileDrawing(st: PdfState, a: nat, p: int)
    requires Inv(st) && st.pdf.Some? && !st.loading && st.isRendering && a < |st.chains|
    requires 1 <= p <= st.numPages.GetOr(0)
    ensures var r := Run(st, [NavigateTo(p), PageChange]);
            && |r.chains| == |st.chains| + 1 && r.chains[a] == st.chains[a]
            && r.isRendering && r.pending == Some(p) && r.renderTask == st.renderTask
            && r.drawn == st.drawn && r.pdf == st.pdf && !r.loading && r.numPages == st.numPages
  {
    var es := [NavigateTo(p), PageChange];
    assert Run(st, es) == Run(Step(st, es[0]), es[1..]);
    assert es[1..] == [PageChange];
    assert Run(Step(st, es[0]), [PageChange]) == Run(Step(Step(st, es[0]), PageChange), []);
  }

  /** Chain `a` gets its page, draws it, and then goes on with the pending page, if any. */
  lemma DrawCycle(st: PdfState, a: nat)
    requires Inv(st) && a < |st.chains| && st.chains[a].phase.AwaitingPage? && st.renderTask.None?
    ensures var r := Run(st, [PageArrives(a, true), DrawCompletes(a)]);
            && r.drawn == st.drawn + [st.chains[a].phase.page]
            && r.renderTask.None? && r.pending.None? && |r.chains| == |st.chains|
            && (st.pending.Some? ==> r.isRendering && r.chains[a].phase == AwaitingPage(st.pending.value))
            && (st.pending.None? ==> !r.isRendering)
  {
    var es := [PageArrives(a, true), DrawCompletes(a)];
    assert Run(st, es) == Run(Step(st, es[0]), es[1..]);
    assert es[1..] == [DrawCompletes(a)];
    assert Run(Step(st, es[0]), [DrawCompletes(a)]) == Run(Step(Step(st, es[0]), DrawCompletes(a)), []);
  }

  /** Four page requests made while page 1 is being drawn draw nothing in between: only pages
   *  1 and 5 are drawn. */
  lemma CoalescedRequests(st: PdfState)
    requires Inv(st) && st.pdf.Some? && !st.loading && !st.isRendering && st.renderTask.None?
    requires st.pageNumber == 1 && st.numPages == Some(5)
    ensures var a := |st.chains|;
            var draw := [PageArrives(a, true), DrawCompletes(a)];
            Run(st, [PageChange] + [NavigateTo(2), PageChange] + [NavigateTo(3), PageChange]
                    + [NavigateTo(4), PageChange] + [NavigateTo(5), PageChange] + draw + draw).drawn
            == st.drawn + [1, 5]
  {
    var a := |st.chains|;
    var e0, e2, e3 := [PageChange], [NavigateTo(2), PageChange], [NavigateTo(3), PageChange];
    var e4, e5 := [NavigateTo(4), PageChange], [NavigateTo(5), PageChange];
    var d := [PageArrives(a, true), DrawCompletes(a)];
    CoalescedStates(st, a, e0, e2, e3, e4, e5, d);
    RunSeven(st, e0, e2, e3, e4, e5, d, d);
  }

  /** Running seven event sequences one after the other. */
  lemma RunSeven(st: PdfState, e0: seq<Event>, e1: seq<Event>, e2: seq<Event>, e3: seq<Event>,
                 e4: seq<Event>, e5: seq<Event>, e6: seq<Event>)
    requires Inv(st)
    ensures Run(st, e0 + e1 + e2 + e3 + e4 + e5 + e6)
         == Run(Run(Run(Run(Run(Run(Run(st, e0), e1), e2), e3), e4), e5), e6)
  {
    RunAppend(st, e0, e1);
    RunAppend(st, e0 + e1, e2);
    RunAppend(st, e0 + e1 + e2, e3);
    RunAppend(st, e0 + e1 + e2 + e3, e4);
    RunAppend(st, e0 + e1 + e2 + e3 + e4, e5);
    RunAppend(st, e0 + e1 + e2 + e3 + e4 + e5, e6);
  }

  lemma CoalescedStates(st: PdfState, a: nat, e0: seq<Event>, e2: seq<Event>, e3: seq<Event>,
                        e4: seq<Event>, e5: seq<Event>, d: seq<Event>)
    requires Inv(st) && st.pdf.Some? && !st.loading && !st.isRendering && st.renderTask.None?
    requires st.pageNumber == 1 && st.numPages == Some(5) && a == |st.chains|
    requires e0 == [PageChange] && e2 == [NavigateTo(2), PageChange] && e3 == [NavigateTo(3), PageChange]
    requires e4 == [NavigateTo(4), PageChange] && e5 == [NavigateTo(5), PageChange]
    requires d == [PageArrives(a, true), DrawCompletes(a)]
    ensures Run(Run(Run(Run(Run(Run(Run(st, e0), e2), e3), e4), e5), d), d).drawn == st.drawn + [1, 5]
  {
    var s1 := Run(st, e0);
    FirstRequestStarts(st);
    var s2 := Run(s1, e2);
    RequestWhileDrawing(s1, a, 2);
    var s3 := Run(s2, e3);
    RequestWhileDrawing(s2, a, 3);
    var s4 := Run(s3, e4);
    RequestWhileDrawing(s3, a, 4);
    var s5 := Run(s4, e5);
    RequestWhileDrawing(s4, a, 5);
    var s6 := Run(s5, d);
    DrawCycle(s5, a);
    DrawCycle(s6, a);
  }

  /** `cleanup` does not stop a render that is still waiting for its page: the page is drawn
   *  afterwards all the same. */
  lemma CleanupDoesNotStopPendingPage(st: PdfState, i: nat)
    requires Inv(st) && i < |st.chains| && st.chains[i].phase.AwaitingPage?
    ensures var after := PageLoaded(Cleanup(st), i, true);
            DrawDone(after, i).drawn == st.drawn + [st.chains[i].phase.page]
  {
  }
}
