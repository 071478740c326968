/** The confirmation dialog (`ConfirmationModal`) and the hook that owns its
    state (`useConfirmationModal`), in src/lib/confirmation-modal.tsx.

    The dialog itself is a pure function of its props: what it shows and how
    it responds to a key press or a click. The hook is a small object whose
    two pieces of state, the stored request and `isLoading`, are updated by
    `showModal`, `hideModal` and `handleConfirm`. The caller's asynchronous
    `onConfirm` action is opaque: it is named by an `ActionId`, and how it
    settles is an `Outcome` passed in. */
module ConfirmationModal {
  import opened Wrappers

  datatype Variant = Default | Destructive

  /** Identity of a caller-supplied `onConfirm` action. */
  type ActionId = nat

  /** How the awaited `onConfirm` promise settles. */
  datatype Outcome = Resolved | Rejected

  /** The props `ConfirmationModal` receives; optional props are `None` when
      the caller leaves them out. */
  datatype Props = Props(
    isOpen: bool,
    title: string,
    message: string,
    confirmText: Option<string>,
    cancelText: Option<string>,
    variant: Option<Variant>,
    confirmLoading: bool)

  /** What is on screen while the dialog is rendered. */
  datatype Dialog = Dialog(
    title: string,
    message: string,
    confirmText: string,
    cancelText: string,
    variant: Variant,
    cancelDisabled: bool,
    confirmDisabled: bool,
    spinner: bool)

  /** Input the rendered dialog can receive. `BackdropClick(self)` is a click
      whose target is the backdrop itself when `self` holds, and a click on
      the dialog body that bubbled up to the backdrop otherwise. */
  datatype UiEvent = KeyDown(key: string) | BackdropClick(onBackdropItself: bool) | CancelClick | ConfirmClick

  /** Which of the two callbacks the dialog calls in response to an event. */
  datatype Response = CallOnClose | CallOnConfirm | NoCall

  /** The dialog's output: nothing when closed; otherwise its texts, with the
      documented defaults for omitted props, and both buttons disabled (and a
      spinner on the confirm button) exactly while `confirmLoading` holds. */
  function Render(p: Props): (d: Option<Dialog>)
    ensures d.None? <==> !p.isOpen
    ensures d.Some? ==> d.value.title == p.title && d.value.message == p.message
    ensures d.Some? ==> d.value.confirmText == (if p.confirmText.None? then "Confirm" else p.confirmText.value)
    ensures d.Some? ==> d.value.cancelText == (if p.cancelText.None? then "Cancel" else p.cancelText.value)
    ensures d.Some? ==> d.value.variant == (if p.variant.None? then Default else p.variant.value)
    ensures d.Some? ==>
      && (d.value.cancelDisabled <==> p.confirmLoading)
      && (d.value.confirmDisabled <==> p.confirmLoading)
      && (d.value.spinner <==> p.confirmLoading)
  {
    if !p.isOpen then None
    else Some(Dialog(p.title, p.message, p.confirmText.GetOr("Confirm"), p.cancelText.GetOr("Cancel"),
                     p.variant.GetOr(Default), p.confirmLoading, p.confirmLoading, p.confirmLoading))
  }

  /** How the dialog answers an event. The Escape listener is registered only
      while open; the backdrop closes only on a click aimed at the backdrop
      itself; the two buttons are inert while `confirmLoading`, but Escape and
      the backdrop are not. */
  function Respond(p: Props, e: UiEvent): (r: Response)
    ensures !p.isOpen ==> r == NoCall
    ensures r == CallOnConfirm <==> p.isOpen && !p.confirmLoading && e == ConfirmClick
    ensures r == CallOnClose <==>
      p.isOpen && (e == KeyDown("Escape") || e == BackdropClick(true) || (e == CancelClick && !p.confirmLoading))
  {
    if !p.isOpen then NoCall
    else match e
      case KeyDown(key) => if key == "Escape" then CallOnClose else NoCall
      case BackdropClick(self) => if self then CallOnClose else NoCall
      case CancelClick => if p.confirmLoading then NoCall else CallOnClose
      case ConfirmClick => if p.confirmLoading then NoCall else CallOnConfirm
  }

  /** While a confirmation is pending the buttons do nothing, yet Escape still
      closes an open dialog. */
  lemma PendingConfirmOnlyEscapeOrBackdropClose(p: Props, e: UiEvent)
    requires p.isOpen && p.confirmLoading
    ensures Respond(p, e) != CallOnConfirm
    ensures Respond(p, e) == CallOnClose <==> e == KeyDown("Escape") || e == BackdropClick(true)
    ensures Render(p).Some? && Render(p).value.cancelDisabled && Render(p).value.confirmDisabled
  {
  }

  /** The request a caller hands to `showModal`; `onConfirm` is mandatory. */
  datatype Request = Request(
    title: string,
    message: string,
    confirmText: Option<string>,
    cancelText: Option<string>,
    variant: Option<Variant>,
    onConfirm: ActionId)

  /** The hook's `modalState`: the open flag plus the stored request. */
  datatype ModalState = ModalState(
    isOpen: bool,
    title: string,
    message: string,
    confirmText: Option<string>,
    cancelText: Option<string>,
    variant: Option<Variant>,
    onConfirm: Option<ActionId>)

  /** `{ ...config, isOpen: true }`: the request replaces the stored one as a
      whole, so an option it leaves out is not inherited from the last one. */
  function Opened(config: Request): ModalState
  {
    ModalState(true, config.title, config.message, config.confirmText, config.cancelText,
               config.variant, Some(config.onConfirm))
  }

  /** The state of one `useConfirmationModal` call site. */
  class ModalHook {
    var modalState: ModalState
    var isLoading: bool

    constructor ()
      ensures modalState == ModalState(false, "", "", None, None, None, None)
      ensures !isLoading
    {
      modalState := ModalState(false, "", "", None, None, None, None);
      isLoading := false;
    }

    /** The props `ModalComponent` passes to the dialog. */
    function ComponentProps(): Props
      reads this
    {
      Props(modalState.isOpen, modalState.title, modalState.message, modalState.confirmText,
            modalState.cancelText, modalState.variant, isLoading)
    }

    /** `showModal`: stores the request and opens; `isLoading` is untouched. */
    method ShowModal(config: Request)
      modifies this
      ensures modalState == Opened(config)
      ensures isLoading == old(isLoading)
    {
      modalState := Opened(config);
    }

    /** `hideModal`: closes and clears the loading flag, keeping the stored
      request. */
    method HideModal()
      modifies this
      ensures modalState == old(modalState).(isOpen := false)
      ensures !isLoading
    {
      modalState := modalState.(isOpen := false);
      isLoading := false;
    }

    /** First half of `handleConfirm`, up to the `await`: with no stored
      action nothing happens; otherwise `isLoading` is set and the stored
      action is the one started. */
    method StartConfirm() returns (started: Option<ActionId>)
      modifies this
      ensures started == old(modalState.onConfirm)
      ensures modalState == old(modalState)
      ensures isLoading == (started.Some? || old(isLoading))
    {
      started := modalState.onConfirm;
      if started.Some? {
        isLoading := true;
      }
    }

    /** Second half of `handleConfirm`, once the action settles: success hides
      the dialog, failure only clears `isLoading` and keeps it open with the
      same request. */
    method FinishConfirm(outcome: Outcome)
      modifies this
      ensures outcome == Resolved ==> modalState == old(modalState).(isOpen := false)
      ensures outcome == Rejected ==> modalState == old(modalState)
      ensures !isLoading
    {
      match outcome
      case Resolved => HideModal();
      case Rejected => isLoading := false;
    }

    /** `handleConfirm` when nothing else happens while the action runs. */
    method HandleConfirm(outcome: Outcome) returns (started: Option<ActionId>)
      modifies this
      ensures started == old(modalState.onConfirm)
      ensures started.None? ==> modalState == old(modalState) && isLoading == old(isLoading)
      ensures started.Some? && outcome == Resolved ==> modalState == old(modalState).(isOpen := false) && !isLoading
      ensures started.Some? && outcome == Rejected ==> modalState == old(modalState) && !isLoading
    {
      started := StartConfirm();
      if started.Some? {
        FinishConfirm(outcome);
      }
    }

    /** An event delivered to the rendered dialog: `onClose` is `hideModal`,
      `onConfirm` is `handleConfirm`. */
    method Dispatch(e: UiEvent, outcome: Outcome) returns (started: Option<ActionId>)
      modifies this
      ensures Respond(old(ComponentProps()), e) == NoCall ==>
        started.None? && modalState == old(modalState) && isLoading == old(isLoading)
      ensures Respond(old(ComponentProps()), e) == CallOnClose ==>
        started.None? && modalState == old(modalState).(isOpen := false) && !isLoading
      ensures Respond(old(ComponentProps()), e) == CallOnConfirm ==>
        && started == old(modalState.onConfirm)
        && (started.None? ==> modalState == old(modalState) && isLoading == old(isLoading))
        && (started.Some? && outcome == Resolved ==> modalState == old(modalState).(isOpen := false) && !isLoading)
        && (started.Some? && outcome == Rejected ==> modalState == old(modalState) && !isLoading)
    {
      started := None;
      match Respond(ComponentProps(), e)
      case NoCall =>
      case CallOnClose => HideModal();
      case CallOnConfirm => started := HandleConfirm(outcome);
    }
  }

  /** A rejected action leaves the same dialog on screen, usable again. */
  method ConfirmRejected(config: Request) returns (started: Option<ActionId>, shown: Option<Dialog>)
    ensures started == Some(config.onConfirm)
    ensures shown.Some? && shown.value.title == config.title && shown.value.message == config.message
    ensures !shown.value.confirmDisabled && !shown.value.spinner
  {
    var hook := new ModalHook();
    hook.ShowModal(config);
    started := hook.Dispatch(ConfirmClick, Rejected);
    shown := Render(hook.ComponentProps());
  }

  /** A resolved action closes the dialog; the action ran exactly once. */
  method ConfirmResolved(config: Request) returns (started: Option<ActionId>, shown: Option<Dialog>, loading: bool)
    ensures started == Some(config.onConfirm)
    ensures shown.None? && !loading
  {
    var hook := new ModalHook();
    hook.ShowModal(config);
    started := hook.Dispatch(ConfirmClick, Resolved);
    shown := Render(hook.ComponentProps());
    loading := hook.isLoading;
  }

  /** Cancel closes without starting the action. */
  method CancelNeverConfirms(config: Request) returns (started: Option<ActionId>, shown: Option<Dialog>)
    ensures started.None? && shown.None?
  {
    var hook := new ModalHook();
    hook.ShowModal(config);
    started := hook.Dispatch(CancelClick, Resolved);
    shown := Render(hook.ComponentProps());
  }

  /** Escape while the action is pending: the buttons are disabled, yet the
      dialog closes at once and stays closed however the action settles. */
  method EscapeWhilePending(config: Request, outcome: Outcome)
    returns (during: Option<Dialog>, afterEscape: Option<Dialog>, afterSettle: Option<Dialog>, loading: bool)
    ensures during.Some? && during.value.confirmDisabled && during.value.cancelDisabled
    ensures afterEscape.None? && afterSettle.None? && !loading
  {
    var hook := new ModalHook();
    hook.ShowModal(config);
    var started := hook.StartConfirm();
    during := Render(hook.ComponentProps());
    var none := hook.Dispatch(KeyDown("Escape"), outcome);
    afterEscape := Render(hook.ComponentProps());
    hook.FinishConfirm(outcome);
    afterSettle := Render(hook.ComponentProps());
    loading := hook.isLoading;
  }
}
