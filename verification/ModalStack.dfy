/** `Modal.tsx`: the shared stack of open modals, the scroll lock on the page body, and who answers Escape. */
module ModalStack {

  /** `document.body.style.overflow` and `.paddingRight`. */
  datatype Style = Style(overflow: string, paddingRight: string)

  datatype State = State(
    stack: seq<nat>,      // modalStack: one fresh symbol for each mounted modal
    listeners: seq<nat>,  // keydown listeners on the document, by modal, in order of registration
    saved: Style,         // savedBodyOverflow, savedBodyPaddingRight
    body: Style)

  /** A mount knows the width of the scrollbar it hides; the page writes the body's style only while no modal is open. */
  datatype Action =
    | Mount(id: nat, scrollbar: nat, px: string)
    | Unmount(id: nat)
    | PageStyles(style: Style)

  function Remove(q: seq<nat>, id: nat): (r: seq<nat>)
    ensures id !in q ==> r == q
    ensures forall x :: x in r ==> x in q
  {
    if q == [] then []
    else if q[0] == id then q[1..]
    else [q[0]] + Remove(q[1..], id)
  }

  function Locked(before: Style, scrollbar: nat, px: string): Style {
    Style("hidden", if scrollbar > 0 then px else before.paddingRight)
  }

  function Step(s: State, e: Action): State {
    match e
    case Mount(id, scrollbar, px) =>
      var grown := s.(stack := s.stack + [id], listeners := s.listeners + [id]);
      if s.stack == [] then grown.(saved := s.body, body := Locked(s.body, scrollbar, px)) else grown
    case Unmount(id) =>
      var closed := s.(stack := Remove(s.stack, id), listeners := Remove(s.listeners, id));
      if closed.stack == [] then closed.(body := s.saved) else closed
    case PageStyles(style) => s.(body := style)
  }

  function Run(s: State, es: seq<Action>): State
    decreases |es|
  {
    if es == [] then s else Step(Run(s, es[..|es| - 1]), es[|es| - 1])
  }

  function Init(body: Style): State {
    State([], [], Style("", ""), body)
  }

  /** Symbols are fresh, only mounted modals unmount, and the page leaves the body's style alone under a modal. */
  predicate Legal(s: State, e: Action) {
    match e
    case Mount(id, _, _) => id !in s.stack
    case Unmount(id) => id in s.stack
    case PageStyles(_) => s.stack == []
  }

  predicate LegalRun(body: Style, es: seq<Action>)
    decreases |es|
  {
    es == [] || (LegalRun(body, es[..|es| - 1]) && Legal(Run(Init(body), es[..|es| - 1]), es[|es| - 1]))
  }

  // ---- The scroll lock -----------------------------------------------------------------------------

  /** The style the page itself last had or gave the body, that is, the one in force before the lock. */
  function PageStyle(body: Style, es: seq<Action>): Style
    decreases |es|
  {
    if es == [] then body
    else if es[|es| - 1].PageStyles? then es[|es| - 1].style
    else PageStyle(body, es[..|es| - 1])
  }

  ghost predicate Distinct(q: seq<nat>) {
    forall i, j | 0 <= i < j < |q| :: q[i] != q[j]
  }

  ghost predicate Consistent(s: State, page: Style) {
    && Distinct(s.stack) && s.listeners == s.stack
    && (s.stack == [] ==> s.body == page)
    && (s.stack != [] ==> s.saved == page && s.body.overflow == "hidden")
  }

  lemma {:induction false} RemoveKeepsDistinct(q: seq<nat>, id: nat)
    requires Distinct(q)
    ensures Distinct(Remove(q, id)) && id !in Remove(q, id)
    ensures forall x | x in q && x != id :: x in Remove(q, id)
  {
    if q != [] && q[0] != id {
      RemoveKeepsDistinct(q[1..], id);
      assert forall i | 0 <= i < |q[1..]| :: q[1..][i] == q[i + 1];
      assert q[0] !in q[1..];
    }
  }

  lemma ConsistentStep(s: State, e: Action, page: Style)
    requires Consistent(s, page) && Legal(s, e)
    ensures Consistent(Step(s, e), if e.PageStyles? then e.style else page)
  {
    if e.Unmount? { RemoveKeepsDistinct(s.stack, e.id); }
  }

  /** For every sequence of mounts and unmounts in any order, the body is locked while a modal is open, and whenever the
      last one closes it has again the overflow and padding the page had given it; listeners are in stack order. */
  lemma {:induction false} LockFollowsStack(body: Style, es: seq<Action>)
    requires LegalRun(body, es)
    ensures Consistent(Run(Init(body), es), PageStyle(body, es))
  {
    if es != [] {
      var before := es[..|es| - 1];
      LockFollowsStack(body, before);
      ConsistentStep(Run(Init(body), before), es[|es| - 1], PageStyle(body, before));
    }
  }

  /** The mount that locked the body: the last one on an empty stack. */
  function LockingMount(body: Style, es: seq<Action>): Action
    decreases |es|
  {
    if es == [] then PageStyles(body)
    else if es[|es| - 1].Mount? && Run(Init(body), es[..|es| - 1]).stack == [] then es[|es| - 1]
    else LockingMount(body, es[..|es| - 1])
  }

  /** While any modal is open the page's scrollbar is hidden, and its width, if it had one when the first opened, is added
      on the right so that the page stays still; otherwise its own padding stays. */
  lemma {:induction false} PaddingUnderLock(body: Style, es: seq<Action>)
    requires LegalRun(body, es) && Run(Init(body), es).stack != []
    ensures var lock, style := LockingMount(body, es), Run(Init(body), es).body;
      && lock.Mount? && style.overflow == "hidden"
      && (lock.scrollbar > 0 ==> style.paddingRight == lock.px)
      && (lock.scrollbar == 0 ==> style.paddingRight == PageStyle(body, es).paddingRight)
  {
    var before := es[..|es| - 1];
    LockFollowsStack(body, before);
    LockFollowsStack(body, es);
    if Run(Init(body), before).stack != [] { PaddingUnderLock(body, before); }
  }

  /** Unless the page hides its own overflow, the body is locked exactly while the stack is non-empty. */
  lemma LockedIffOpen(body: Style, es: seq<Action>)
    requires LegalRun(body, es) && PageStyle(body, es).overflow != "hidden"
    ensures Run(Init(body), es).body.overflow == "hidden" <==> Run(Init(body), es).stack != []
  {
    LockFollowsStack(body, es);
  }

  /** Mounted, and not unmounted since. */
  ghost predicate Open(es: seq<Action>, id: nat) {
    exists i :: 0 <= i < |es| && es[i].Mount? && es[i].id == id && forall j | i < j < |es| :: es[j] != Unmount(id)
  }

  /** The stack is the open modals, whatever the order in which they came and went. */
  lemma {:induction false} StackIsOpenModals(body: Style, es: seq<Action>, id: nat)
    requires LegalRun(body, es)
    ensures id in Run(Init(body), es).stack <==> Open(es, id)
  {
    if es != [] {
      var n := |es| - 1;
      var before, last := es[..n], es[n];
      StackIsOpenModals(body, before, id);
      LockFollowsStack(body, before);
      if last.Unmount? { RemoveKeepsDistinct(Run(Init(body), before).stack, last.id); }
      OpenAfter(es, id);
    }
  }

  lemma OpenAfter(es: seq<Action>, id: nat)
    requires es != []
    ensures var last := es[|es| - 1];
      Open(es, id) <==> (last.Mount? && last.id == id) || (Open(es[..|es| - 1], id) && last != Unmount(id))
  {
    var before := es[..|es| - 1];
    if Open(before, id) && es[|es| - 1] != Unmount(id) {
      var i :| 0 <= i < |before| && before[i].Mount? && before[i].id == id
        && forall j | i < j < |before| :: before[j] != Unmount(id);
      assert es[i] == before[i];
    }
  }

  /** When a modal was last mounted; 0 for never. */
  function MountTime(es: seq<Action>, id: nat): (t: nat)
    ensures t <= |es|
    decreases |es|
  {
    if es == [] then 0
    else if es[|es| - 1].Mount? && es[|es| - 1].id == id then |es|
    else MountTime(es[..|es| - 1], id)
  }

  ghost predicate InOrder(q: seq<nat>, time: nat -> nat) {
    forall i, j | 0 <= i < j < |q| :: time(q[i]) < time(q[j])
  }

  lemma {:induction false} RemoveKeepsOrder(q: seq<nat>, id: nat, time: nat -> nat)
    requires InOrder(q, time)
    ensures InOrder(Remove(q, id), time)
  {
    if q != [] && q[0] != id {
      RemoveKeepsOrder(q[1..], id, time);
      forall x | x in Remove(q[1..], id) ensures time(q[0]) < time(x) {
        var k :| 0 <= k < |q[1..]| && q[1..][k] == x;
        assert q[k + 1] == x;
      }
    }
  }

  /** The stack is in the order in which its modals were mounted, so its top is the one opened last. */
  lemma {:induction false} StackInMountOrder(body: Style, es: seq<Action>)
    requires LegalRun(body, es)
    ensures InOrder(Run(Init(body), es).stack, id => MountTime(es, id))
  {
    if es != [] {
      var before, last := es[..|es| - 1], es[|es| - 1];
      var s := Run(Init(body), before);
      StackInMountOrder(body, before);
      if last.Unmount? { RemoveKeepsOrder(s.stack, last.id, id => MountTime(before, id)); }
      forall id: nat | !(last.Mount? && last.id == id) ensures MountTime(es, id) == MountTime(before, id) {}
    }
  }

  // ---- Escape --------------------------------------------------------------------------------------

  class Page {
    var stack: seq<nat>
    var listeners: seq<nat>
    var saved: Style
    var body: Style

    ghost function View(): State
      reads this
    {
      State(stack, listeners, saved, body)
    }

    constructor (body: Style)
      ensures View() == Init(body)
    {
      stack, listeners, saved, this.body := [], [], Style("", ""), body;
    }

    /** The mount effect. */
    method OnMount(id: nat, scrollbar: nat, px: string)
      modifies this
      ensures View() == Step(old(View()), Mount(id, scrollbar, px))
    {
      stack := stack + [id];
      listeners := listeners + [id];
      if |stack| == 1 {
        saved := body;
        body := body.(overflow := "hidden");
        if scrollbar > 0 {
          body := body.(paddingRight := px);
        }
      }
    }

    /** The effect's cleanup. */
    method OnUnmount(id: nat)
      modifies this
      ensures View() == Step(old(View()), Unmount(id))
    {
      listeners := Remove(listeners, id);
      stack := Remove(stack, id);
      if |stack| == 0 {
        body := saved;
      }
    }

    method Apply(actions: seq<Action>)
      modifies this
      ensures View() == Run(old(View()), actions)
    {
      var i := 0;
      assert actions[..0] == [];
      while i < |actions|
        invariant i <= |actions| && View() == Run(old(View()), actions[..i])
      {
        match actions[i] {
          case Mount(id, scrollbar, px) => OnMount(id, scrollbar, px);
          case Unmount(id) => OnUnmount(id);
          case PageStyles(style) => body := style;
        }
        i := i + 1;
        assert actions[..i][..i - 1] == actions[..i - 1];
      }
      assert actions[..|actions|] == actions;
    }

    /** The browser calls the listeners registered when the key went down, in order, skipping any removed meanwhile.
        Each asks whether its modal is on top at that moment. `onClose(id)` is what that modal's `onClose` does before
        it returns; it may unmount or mount any modals. */
    method PressEscape(onClose: nat -> seq<Action>) returns (fired: seq<nat>)
      requires Distinct(stack) && listeners == stack
      modifies this
      ensures fired == if old(stack) == [] then [] else [old(stack)[|old(stack)| - 1]]
      ensures View() == if old(stack) == [] then old(View())
                        else Run(old(View()), onClose(old(stack)[|old(stack)| - 1]))
    {
      fired := [];
      var snapshot := listeners;
      var i := 0;
      while i < |snapshot|
        invariant i <= |snapshot| && snapshot == old(stack)
        invariant i < |snapshot| || snapshot == [] ==> View() == old(View()) && fired == []
        invariant i == |snapshot| > 0 ==>
          && fired == [snapshot[|snapshot| - 1]]
          && View() == Run(old(View()), onClose(snapshot[|snapshot| - 1]))
      {
        var id := snapshot[i];
        if id in listeners && stack != [] && stack[|stack| - 1] == id {
          fired := fired + [id];
          Apply(onClose(id));
        }
        i := i + 1;
      }
    }
  }
}
