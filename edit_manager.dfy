/** A model of the photo editor's coordinator, EditManager
    (web/src/lib/managers/edit/edit-manager.svelte.ts).

    The coordinator owns a fixed, ordered list of editing tools (Transform, then Filter),
    the asset under edit, the selected tool and three UI flags.  Everything it talks to is
    outside this model: the tool managers, the confirmation dialog, the toasts, the SDK
    requests and the websocket wait.  Their answers are method parameters, and every call
    the coordinator makes to them is appended to the ghost `trace`, so that the order of
    those calls can be stated in the contracts.

    `A` is the opaque type of one edit action; the coordinator never looks inside one. */
module Edit {

  datatype Option<T> = None | Some(value: T)

  /** The kinds of editing tool. */
  datatype EditToolType = Transform | Filter

  /** The asset under edit; the coordinator only reads its identifier. */
  datatype Asset = Asset(id: string)

  /** What the coordinator can read of a tool's manager. */
  datatype ToolManager<A> = ToolManager(hasChanges: bool, edits: seq<A>)

  /** One entry of the tool list (the icon and the view component are left out). */
  datatype EditTool<A> = EditTool(kind: EditToolType, manager: ToolManager<A>)

  /** The three hooks the coordinator calls on a tool's manager. */
  datatype Hook<A> = OnActivate(asset: Asset, edits: seq<A>) | OnDeactivate | OnResetAllChanges

  /** The two mutating requests of the SDK the coordinator can send. */
  datatype Request<A> = RemoveAssetEdits(id: string) | EditAsset(id: string, edits: seq<A>)

  datatype ToastKind = Success | Danger

  /** A call from the coordinator to one of its collaborators. */
  datatype Event<A> =
    | HookCalled(tool: EditToolType, hook: Hook<A>)
    | ConfirmShown(title: string, prompt: string, confirmText: string)
    | ListenerArmed(eventName: string, timeoutMs: nat)
    | Requested(request: Request<A>)
    | CompletionAwaited
    | Toast(kind: ToastKind, message: string)

  const DiscardTitle := "Discard Edits?"
  const DiscardPrompt := "You have unsaved edits. Are you sure you want to discard them?"
  const DiscardConfirmText := "Discard Edits"
  const EditReadyEvent := "AssetEditReadyV1"
  const EditReadyTimeoutMs: nat := 10_000
  const AppliedMessage := "Edits applied successfully"
  const FailedMessage := "Failed to apply edits"

  /** The tool list as the coordinator declares it: Transform first, then Filter. */
  predicate IsDeclaredToolList<A>(ts: seq<EditTool<A>>) {
    |ts| == 2 && ts[0].kind == Transform && ts[1].kind == Filter
  }

  /** The derived `hasChanges`: some tool's manager reports unsaved changes. */
  function AnyHasChanges<A>(ts: seq<EditTool<A>>): (r: bool)
    ensures r <==> exists i :: 0 <= i < |ts| && ts[i].manager.hasChanges
  {
    if ts == [] then false
    else if ts[0].manager.hasChanges then true
    else
      var rest := AnyHasChanges(ts[1..]);
      assert forall i :: 1 <= i < |ts| ==> ts[i] == ts[1..][i - 1];
      rest
  }

  /** The lookup of `activateTool`: the index of the first tool of the given kind. */
  function FindTool<A>(ts: seq<EditTool<A>>, kind: EditToolType): (r: Option<nat>)
    ensures r.Some? ==> r.value < |ts| && ts[r.value].kind == kind
    ensures r.Some? ==> forall j :: 0 <= j < r.value ==> ts[j].kind != kind
    ensures r.None? <==> forall j :: 0 <= j < |ts| ==> ts[j].kind != kind
  {
    if ts == [] then None
    else if ts[0].kind == kind then Some(0)
    else
      match FindTool(ts[1..], kind)
      case None =>
        assert forall j :: 1 <= j < |ts| ==> ts[j] == ts[1..][j - 1];
        None
      case Some(j) => Some(j + 1)
  }

  /** On the declared list every kind is found, at its declared position. */
  lemma DeclaredToolsFound<A>(ts: seq<EditTool<A>>, kind: EditToolType)
    requires IsDeclaredToolList(ts)
    ensures FindTool(ts, kind) == Some(if kind == Transform then 0 else 1)
  {
  }

  /** The `flatMap` of `applyEdits`: every tool's edits, concatenated in tool order. */
  function CombinedEdits<A>(ts: seq<EditTool<A>>): seq<A>
  {
    if ts == [] then [] else ts[0].manager.edits + CombinedEdits(ts[1..])
  }

  lemma {:induction false} CombinedEditsAppend<A>(a: seq<EditTool<A>>, b: seq<EditTool<A>>)
    ensures CombinedEdits(a + b) == CombinedEdits(a) + CombinedEdits(b)
  {
    if a == [] {
      assert a + b == b;
    } else {
      assert (a + b)[1..] == a[1..] + b;
      CombinedEditsAppend(a[1..], b);
    }
  }

  /** The combined list is empty exactly when every tool's edit list is empty. */
  lemma {:induction false} CombinedEditsEmpty<A>(ts: seq<EditTool<A>>)
    ensures CombinedEdits(ts) == [] <==> forall i :: 0 <= i < |ts| ==> ts[i].manager.edits == []
  {
    if ts != [] {
      CombinedEditsEmpty(ts[1..]);
      assert forall i :: 1 <= i < |ts| ==> ts[i] == ts[1..][i - 1];
      if CombinedEdits(ts) == [] {
        assert |ts[0].manager.edits| == 0;
      }
    }
  }

  /** Nothing is lost or invented: an action is in the combined list exactly when it is
      in some tool's list. */
  lemma {:induction false} CombinedEditsMember<A>(ts: seq<EditTool<A>>, x: A)
    ensures x in CombinedEdits(ts) <==> exists i :: 0 <= i < |ts| && x in ts[i].manager.edits
  {
    if ts != [] {
      var rest := ts[1..];
      CombinedEditsMember(rest, x);
      assert CombinedEdits(ts) == ts[0].manager.edits + CombinedEdits(rest);
      if x in CombinedEdits(ts) && x !in ts[0].manager.edits {
        var i :| 0 <= i < |rest| && x in rest[i].manager.edits;
        assert rest[i] == ts[i + 1];
      }
      if i :| 0 <= i < |ts| && x in ts[i].manager.edits {
        if i > 0 {
          assert rest[i - 1] == ts[i];
        }
      }
    }
  }

  /** On the declared list, Transform's edits come first and Filter's follow. */
  lemma DeclaredCombinedEdits<A>(ts: seq<EditTool<A>>)
    requires IsDeclaredToolList(ts)
    ensures CombinedEdits(ts) == ts[0].manager.edits + ts[1].manager.edits
  {
    assert ts == [ts[0]] + [ts[1]];
    CombinedEditsAppend([ts[0]], [ts[1]]);
    assert [ts[0]][1..] == [] && [ts[1]][1..] == [];
  }

  /** The hook calls of one loop over the tool list, in list order. */
  function HookEvents<A>(ts: seq<EditTool<A>>, h: Hook<A>): seq<Event<A>>
  {
    if ts == [] then [] else [HookCalled(ts[0].kind, h)] + HookEvents(ts[1..], h)
  }

  lemma {:induction false} HookEventsAppend<A>(a: seq<EditTool<A>>, b: seq<EditTool<A>>, h: Hook<A>)
    ensures HookEvents(a + b, h) == HookEvents(a, h) + HookEvents(b, h)
  {
    if a == [] {
      assert a + b == b;
    } else {
      assert (a + b)[1..] == a[1..] + b;
      HookEventsAppend(a[1..], b, h);
    }
  }

  /** A hook loop calls the hook exactly once per tool, the i-th call on the i-th tool. */
  lemma {:induction false} HookEventsAt<A>(ts: seq<EditTool<A>>, h: Hook<A>)
    ensures |HookEvents(ts, h)| == |ts|
    ensures forall i :: 0 <= i < |ts| ==> HookEvents(ts, h)[i] == HookCalled(ts[i].kind, h)
  {
    if ts != [] {
      HookEventsAt(ts[1..], h);
      assert forall i :: 1 <= i < |ts| ==> ts[i] == ts[1..][i - 1];
    }
  }

  /** On the declared list a hook loop calls Transform's hook, then Filter's. */
  lemma DeclaredHookOrder<A>(ts: seq<EditTool<A>>, h: Hook<A>)
    requires IsDeclaredToolList(ts)
    ensures HookEvents(ts, h) == [HookCalled(Transform, h), HookCalled(Filter, h)]
  {
    HookEventsAt(ts, h);
  }

  /** The request `applyEdits` sends: "remove all edits" for an empty list, otherwise
      "apply edits" with the whole list. */
  function EditRequest<A>(id: string, edits: seq<A>): (r: Request<A>)
    ensures r.id == id
    ensures r.RemoveAssetEdits? <==> |edits| == 0
    ensures r.EditAsset? ==> r.edits == edits
  {
    if |edits| == 0 then RemoveAssetEdits(id) else EditAsset(id, edits)
  }

  /** Whether `applyEdits` succeeds: there is an asset, the request succeeded and the
      completion event arrived in time. */
  predicate SubmitSucceeds(asset: Option<Asset>, requestOk: bool, completionOk: bool) {
    asset.Some? && requestOk && completionOk
  }

  /** The calls `applyEdits` makes to its collaborators, in order. */
  function SubmitEvents<A>(asset: Option<Asset>, edits: seq<A>, requestOk: bool, completionOk: bool)
    : (es: seq<Event<A>>)
    // the listener is armed before anything else
    ensures |es| >= 2 && es[0] == ListenerArmed(EditReadyEvent, EditReadyTimeoutMs)
    // at most one request, right after the listener, and only when there is an asset
    ensures forall i :: 0 <= i < |es| && es[i].Requested? ==>
              i == 1 && asset.Some? && es[i].request == EditRequest(asset.value.id, edits)
    ensures asset.Some? ==> es[1].Requested?
    // the completion is awaited only once the request has succeeded
    ensures (exists i :: 0 <= i < |es| && es[i].CompletionAwaited?) <==> asset.Some? && requestOk
    // exactly one toast, the last call, saying how it went
    ensures forall i :: 0 <= i < |es| - 1 ==> !es[i].Toast?
    ensures es[|es| - 1] == if SubmitSucceeds(asset, requestOk, completionOk)
                            then Toast(Success, AppliedMessage)
                            else Toast(Danger, FailedMessage)
  {
    var armed := [ListenerArmed(EditReadyEvent, EditReadyTimeoutMs)];
    if asset.None? then
      armed + [Toast(Danger, FailedMessage)]
    else
      var sent := armed + [Requested(EditRequest(asset.value.id, edits))];
      if !requestOk then sent + [Toast(Danger, FailedMessage)]
      else
        var toast := if completionOk then Toast(Success, AppliedMessage) else Toast(Danger, FailedMessage);
        var es := sent + [CompletionAwaited, toast];
        assert es[2].CompletionAwaited?;
        es
  }

  class EditManager<A> {
    var tools: seq<EditTool<A>>
    var currentAsset: Option<Asset>
    /** The selected tool, as its index in `tools`. */
    var selectedTool: Option<nat>
    /** Set while the discard dialog is open, so that a second one is refused. */
    var isShowingConfirmDialog: bool
    var isApplyingEdits: bool
    var hasAppliedEdits: bool
    /** Every call made to a collaborator, oldest first. */
    ghost var trace: seq<Event<A>>

    ghost predicate Valid()
      reads this
    {
      IsDeclaredToolList(tools) &&
      (selectedTool.Some? ==> selectedTool.value < |tools|)
    }

    /** The coordinator as created at start-up, over the two tool managers. */
    constructor (transform: ToolManager<A>, filter: ToolManager<A>)
      ensures Valid()
      ensures tools == [EditTool(Transform, transform), EditTool(Filter, filter)]
      ensures currentAsset == None && selectedTool == None
      ensures !isShowingConfirmDialog && !isApplyingEdits && !hasAppliedEdits
      ensures trace == []
    {
      tools := [EditTool(Transform, transform), EditTool(Filter, filter)];
      currentAsset := None;
      selectedTool := None;
      isShowingConfirmDialog := false;
      isApplyingEdits := false;
      hasAppliedEdits := false;
      trace := [];
    }

    /** The derived `hasChanges`. */
    function HasChanges(): (r: bool)
      reads this
      ensures r <==> exists i :: 0 <= i < |tools| && tools[i].manager.hasChanges
    {
      AnyHasChanges(tools)
    }

    /** A tool's manager changes its own state (the user edits in the tool, or one of
        its hooks loads or clears edits); the coordinator only observes it. */
    method UpdateTool(kind: EditToolType, m: ToolManager<A>)
      requires Valid()
      modifies this
      ensures Valid()
      ensures |tools| == |old(tools)|
      ensures forall j :: 0 <= j < |tools| ==>
                tools[j] == if old(tools)[j].kind == kind then EditTool(kind, m) else old(tools)[j]
      ensures currentAsset == old(currentAsset) && selectedTool == old(selectedTool)
      ensures isShowingConfirmDialog == old(isShowingConfirmDialog)
      ensures isApplyingEdits == old(isApplyingEdits) && hasAppliedEdits == old(hasAppliedEdits)
      ensures trace == old(trace)
    {
      DeclaredToolsFound(tools, kind);
      var k := if kind == Transform then 0 else 1;
      tools := tools[k := EditTool(kind, m)];
    }

    /** Calls hook `h` on every tool's manager, one after the other, in list order. */
    method RunHooks(h: Hook<A>)
      modifies this`trace
      ensures trace == old(trace) + HookEvents(tools, h)
    {
      for i := 0 to |tools|
        invariant trace == old(trace) + HookEvents(tools[..i], h)
      {
        assert tools[..i + 1] == tools[..i] + [tools[i]];
        HookEventsAppend(tools[..i], [tools[i]], h);
        assert [tools[i]][1..] == [];
        trace := trace + [HookCalled(tools[i].kind, h)];
      }
      assert tools[..|tools|] == tools;
    }

    /** `closeConfirm`: may the editor close?  `confirmed` is the user's answer to the
        discard dialog, used only when the dialog is shown. */
    method CloseConfirm(confirmed: bool) returns (mayClose: bool)
      requires Valid()
      modifies this
      ensures Valid()
      ensures tools == old(tools) && currentAsset == old(currentAsset)
      ensures selectedTool == old(selectedTool)
      ensures isApplyingEdits == old(isApplyingEdits) && hasAppliedEdits == old(hasAppliedEdits)
      // the flag is back to its entry value on every return
      ensures isShowingConfirmDialog == old(isShowingConfirmDialog)
      // a dialog already open: refuse, without a second dialog
      ensures old(isShowingConfirmDialog) ==> !mayClose && trace == old(trace)
      // nothing to lose: close, without a dialog
      ensures !old(isShowingConfirmDialog) && (!HasChanges() || hasAppliedEdits) ==>
                mayClose && trace == old(trace)
      // otherwise exactly one dialog, and the user decides
      ensures !old(isShowingConfirmDialog) && HasChanges() && !hasAppliedEdits ==>
                mayClose == confirmed &&
                trace == old(trace) + [ConfirmShown(DiscardTitle, DiscardPrompt, DiscardConfirmText)]
    {
      if isShowingConfirmDialog {
        return false;
      }
      if !HasChanges() || hasAppliedEdits {
        return true;
      }
      isShowingConfirmDialog := true;
      trace := trace + [ConfirmShown(DiscardTitle, DiscardPrompt, DiscardConfirmText)];
      isShowingConfirmDialog := false;
      mayClose := confirmed;
    }

    /** `reset`: deactivates every tool and selects the first, keeping the asset. */
    method Reset()
      requires Valid()
      modifies this
      ensures Valid()
      ensures selectedTool == Some(0) && currentAsset == old(currentAsset)
      ensures tools == old(tools)
      ensures isShowingConfirmDialog == old(isShowingConfirmDialog)
      ensures isApplyingEdits == old(isApplyingEdits) && hasAppliedEdits == old(hasAppliedEdits)
      ensures trace == old(trace) + [HookCalled(Transform, OnDeactivate), HookCalled(Filter, OnDeactivate)]
    {
      RunHooks(OnDeactivate);
      DeclaredHookOrder(tools, OnDeactivate);
      selectedTool := Some(0);
    }

    /** `init`: starts a session on `asset`, handing its saved `edits` to every tool,
        and selects the first tool. */
    method Init(asset: Asset, edits: seq<A>)
      requires Valid()
      modifies this
      ensures Valid()
      ensures currentAsset == Some(asset) && selectedTool == Some(0)
      ensures tools == old(tools)
      ensures isShowingConfirmDialog == old(isShowingConfirmDialog)
      ensures isApplyingEdits == old(isApplyingEdits) && hasAppliedEdits == old(hasAppliedEdits)
      ensures trace == old(trace) + [HookCalled(Transform, OnActivate(asset, edits)),
                                     HookCalled(Filter, OnActivate(asset, edits))]
    {
      currentAsset := Some(asset);
      RunHooks(OnActivate(asset, edits));
      DeclaredHookOrder(tools, OnActivate(asset, edits));
      selectedTool := Some(0);
    }

    /** `activateTool`: selects the first tool of the given kind, if there is one. */
    method ActivateTool(kind: EditToolType)
      requires Valid()
      modifies this
      ensures Valid()
      ensures selectedTool == match FindTool(tools, kind)
                              case Some(i) => Some(i)
                              case None => old(selectedTool)
      // on the declared list the kind is always there
      ensures selectedTool.Some? && tools[selectedTool.value].kind == kind
      ensures tools == old(tools) && currentAsset == old(currentAsset)
      ensures isShowingConfirmDialog == old(isShowingConfirmDialog)
      ensures isApplyingEdits == old(isApplyingEdits) && hasAppliedEdits == old(hasAppliedEdits)
      ensures trace == old(trace)
    {
      var found := FindTool(tools, kind);
      if found.Some? {
        selectedTool := found;
      }
    }

    /** `cleanup`: deactivates every tool and ends the session. */
    method Cleanup()
      requires Valid()
      modifies this
      ensures Valid()
      ensures currentAsset == None && selectedTool == None
      ensures tools == old(tools)
      ensures isShowingConfirmDialog == old(isShowingConfirmDialog)
      ensures isApplyingEdits == old(isApplyingEdits) && hasAppliedEdits == old(hasAppliedEdits)
      ensures trace == old(trace) + [HookCalled(Transform, OnDeactivate), HookCalled(Filter, OnDeactivate)]
    {
      RunHooks(OnDeactivate);
      DeclaredHookOrder(tools, OnDeactivate);
      currentAsset := None;
      selectedTool := None;
    }

    /** `resetAllChanges`: asks every tool to drop its changes; the coordinator's own
        fields do not change. */
    method ResetAllChanges()
      requires Valid()
      modifies this`trace
      ensures trace == old(trace) + [HookCalled(Transform, OnResetAllChanges), HookCalled(Filter, OnResetAllChanges)]
    {
      RunHooks(OnResetAllChanges);
      DeclaredHookOrder(tools, OnResetAllChanges);
    }

    /** `applyEdits`: submits the combined edit list.  `requestOk` says whether the SDK
        request succeeded, `completionOk` whether the matching "edit ready" event arrived
        before the timeout. */
    method ApplyEdits(requestOk: bool, completionOk: bool) returns (applied: bool)
      requires Valid()
      modifies this
      ensures Valid()
      ensures applied <==> SubmitSucceeds(currentAsset, requestOk, completionOk)
      // set only on success, never cleared
      ensures hasAppliedEdits <==> applied || old(hasAppliedEdits)
      // released on every exit
      ensures !isApplyingEdits
      ensures tools == old(tools) && currentAsset == old(currentAsset)
      ensures selectedTool == old(selectedTool)
      ensures isShowingConfirmDialog == old(isShowingConfirmDialog)
      // the request carries Transform's edits followed by Filter's
      ensures trace == old(trace) + SubmitEvents(currentAsset, tools[0].manager.edits + tools[1].manager.edits,
                                                 requestOk, completionOk)
    {
      isApplyingEdits := true;
      var edits := CombinedEdits(tools);
      DeclaredCombinedEdits(tools);

      trace := trace + [ListenerArmed(EditReadyEvent, EditReadyTimeoutMs)];
      if currentAsset.None? {
        // reading the id of a missing asset throws inside the try block
        trace := trace + [Toast(Danger, FailedMessage)];
        applied := false;
      } else {
        var request := EditRequest(currentAsset.value.id, edits);
        trace := trace + [Requested(request)];
        if !requestOk {
          trace := trace + [Toast(Danger, FailedMessage)];
          applied := false;
        } else {
          trace := trace + [CompletionAwaited];
          if !completionOk {
            trace := trace + [Toast(Danger, FailedMessage)];
            applied := false;
          } else {
            trace := trace + [Toast(Success, AppliedMessage)];
            hasAppliedEdits := true;
            applied := true;
          }
        }
      }
      isApplyingEdits := false;
    }
  }
}
