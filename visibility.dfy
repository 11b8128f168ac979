/**
 * ApplicationVisibilityDetector: counts started activities and, after a short
 * delay, tells its listeners when the application came to the foreground or
 * went to the background. The delayed handler messages are the `pending` set
 * and the handler delivering one of them is DeliverPending.
 */
module Visibility {
  import opened Wrappers
  import opened Platform

  const WHAT_UI_VISIBLE: int := 0
  const WHAT_UI_HIDDEN: int := 1
  /** The delay of the handler messages; time itself is not modelled. */
  const UI_VISIBILITY_DELAY_MS: int := 300

  predicate IsMessage(what: int) {
    what == WHAT_UI_VISIBLE || what == WHAT_UI_HIDDEN
  }

  datatype Transition = EnterForeground | EnterBackground

  /** One listener callback. */
  datatype Notice = Notice(listener: Listener, transition: Transition)

  /** VISIBLE means foreground; anything else is handled as background. */
  function TransitionOf(what: int): (t: Transition)
    ensures t == EnterForeground <==> what == WHAT_UI_VISIBLE
  {
    if what == WHAT_UI_VISIBLE then EnterForeground else EnterBackground
  }

  /** One callback per listener, in list order. */
  function Notify(ls: seq<Listener>, t: Transition): (ns: seq<Notice>)
    ensures |ns| == |ls|
    ensures forall i :: 0 <= i < |ns| ==> ns[i] == Notice(ls[i], t)
  {
    if ls == [] then [] else Notify(ls[..|ls| - 1], t) + [Notice(ls[|ls| - 1], t)]
  }

  /** The last handled message after handling `msgs`, starting from `last`. */
  function LastAfter(last: int, msgs: seq<int>): int {
    if msgs == [] then last else msgs[|msgs| - 1]
  }

  /**
   * The transitions reported while handling `msgs` one after the other,
   * starting from `last`: a message equal to the one handled before it
   * reports nothing.
   */
  function Fired(last: int, msgs: seq<int>): seq<Transition>
    decreases |msgs|
  {
    if msgs == [] then []
    else
      var init := msgs[..|msgs| - 1];
      var m := msgs[|msgs| - 1];
      Fired(last, init) + (if LastAfter(last, init) == m then [] else [TransitionOf(m)])
  }

  predicate Alternates(ts: seq<Transition>) {
    forall i :: 0 < i < |ts| ==> ts[i] != ts[i - 1]
  }

  /**
   * Whatever the order of VISIBLE and HIDDEN messages, the reported
   * transitions alternate, the last one matches the last handled message, and
   * the first one leaves the starting state. From the initial HIDDEN the
   * first report is therefore always a foreground one.
   */
  lemma {:induction false} FiredAlternates(last: int, msgs: seq<int>)
    requires IsMessage(last)
    requires forall i :: 0 <= i < |msgs| ==> IsMessage(msgs[i])
    ensures Alternates(Fired(last, msgs))
    ensures Fired(last, msgs) == [] ==> LastAfter(last, msgs) == last
    ensures Fired(last, msgs) != [] ==> Fired(last, msgs)[|Fired(last, msgs)| - 1] == TransitionOf(LastAfter(last, msgs))
    ensures Fired(last, msgs) != [] ==> Fired(last, msgs)[0] != TransitionOf(last)
    decreases |msgs|
  {
    if msgs != [] {
      var init := msgs[..|msgs| - 1];
      var m := msgs[|msgs| - 1];
      assert forall i :: 0 <= i < |init| ==> IsMessage(init[i]) by {
        forall i | 0 <= i < |init| ensures IsMessage(init[i]) {
          assert init[i] == msgs[i];
        }
      }
      FiredAlternates(last, init);
      var before := Fired(last, init);
      var prev := LastAfter(last, init);
      assert IsMessage(prev);
      assert LastAfter(last, msgs) == m;
      if prev != m {
        var t := TransitionOf(m);
        assert Fired(last, msgs) == before + [t];
        assert t != TransitionOf(prev);
        AlternatesSnoc(before, t);
        if before == [] {
          assert (before + [t])[0] == t;
        } else {
          assert (before + [t])[0] == before[0];
        }
      } else {
        assert Fired(last, msgs) == before;
      }
    }
  }

  /** Handling one more message: it becomes the last one, and it reports iff it differs from the previous last. */
  lemma FiredSnoc(last: int, msgs: seq<int>, m: int)
    ensures LastAfter(last, msgs + [m]) == m
    ensures Fired(last, msgs + [m]) == Fired(last, msgs) + (if LastAfter(last, msgs) == m then [] else [TransitionOf(m)])
  {
    assert (msgs + [m])[..|msgs|] == msgs;
  }

  lemma MessagesSnoc(msgs: seq<int>, m: int)
    requires forall i :: 0 <= i < |msgs| ==> IsMessage(msgs[i])
    requires IsMessage(m)
    ensures forall i :: 0 <= i < |msgs + [m]| ==> IsMessage((msgs + [m])[i])
  {
    forall i | 0 <= i < |msgs + [m]| ensures IsMessage((msgs + [m])[i]) {
      if i < |msgs| {
        assert (msgs + [m])[i] == msgs[i];
      }
    }
  }

  /** Appending a transition that differs from the last one keeps the alternation. */
  lemma AlternatesSnoc(ts: seq<Transition>, t: Transition)
    requires Alternates(ts) && (ts != [] ==> ts[|ts| - 1] != t)
    ensures Alternates(ts + [t])
  {
    var us := ts + [t];
    forall i | 0 < i < |us| ensures us[i] != us[i - 1] {
      if i < |ts| {
        assert us[i] == ts[i] && us[i - 1] == ts[i - 1];
      }
    }
  }

  /** From the initial state a lone HIDDEN message reports nothing. */
  lemma InitialHiddenSilent()
    ensures Fired(WHAT_UI_HIDDEN, [WHAT_UI_HIDDEN]) == []
  {
    assert [WHAT_UI_HIDDEN][..0] == [];
  }

  /** List.remove(Object): the first occurrence goes, the rest keeps its order. */
  function RemoveFirst(ls: seq<Listener>, l: Listener): (r: seq<Listener>)
    ensures l !in ls ==> r == ls
    ensures l in ls ==> |r| == |ls| - 1 && multiset(r) == multiset(ls) - multiset{l}
  {
    if ls == [] then []
    else
      assert ls == [ls[0]] + ls[1..];
      if ls[0] == l then ls[1..]
      else [ls[0]] + RemoveFirst(ls[1..], l)
  }

  class ApplicationVisibilityDetector {
    var counter: int
    var uiVisible: bool
    var lastHandledMessage: int
    /** The handler messages scheduled and not yet delivered or removed. */
    var pending: set<int>
    var listeners: seq<Listener>
    /** Every listener callback made, in order. */
    var notices: seq<Notice>
    /** Every message the handler delivered, in order. */
    ghost var handled: seq<int>

    /**
     * The counter is never negative and is positive exactly while the UI is
     * visible; at most the message matching the visibility is pending; the
     * last handled message is the last one delivered.
     */
    ghost predicate Valid()
      reads this
    {
      && counter >= 0
      && (uiVisible <==> counter > 0)
      && pending <= {if uiVisible then WHAT_UI_VISIBLE else WHAT_UI_HIDDEN}
      && (forall i :: 0 <= i < |handled| ==> IsMessage(handled[i]))
      && lastHandledMessage == LastAfter(WHAT_UI_HIDDEN, handled)
    }

    constructor ()
      ensures Valid()
      ensures counter == 0 && !uiVisible && lastHandledMessage == WHAT_UI_HIDDEN && pending == {}
      ensures listeners == [] && notices == [] && handled == []
    {
      counter := 0;
      uiVisible := false;
      lastHandledMessage := WHAT_UI_HIDDEN;
      pending := {};
      listeners := [];
      notices := [];
      handled := [];
    }

    /** addListener: a missing listener is a NullPointerException. */
    method AddListener(l: Option<Listener>) returns (r: Outcome)
      modifies this`listeners
      ensures l.None? ==> r == Fail(NullPointer) && listeners == old(listeners)
      ensures l.Some? ==> r == Pass && listeners == old(listeners) + [l.value]
    {
      if l.None? {
        return Fail(NullPointer);
      }
      listeners := listeners + [l.value];
      r := Pass;
    }

    /** removeListener: a missing listener is a NullPointerException; otherwise its first occurrence goes. */
    method RemoveListener(l: Option<Listener>) returns (r: Outcome)
      modifies this`listeners
      ensures l.None? ==> r == Fail(NullPointer) && listeners == old(listeners)
      ensures l.Some? ==> r == Pass && listeners == RemoveFirst(old(listeners), l.value)
    {
      if l.None? {
        return Fail(NullPointer);
      }
      listeners := RemoveFirst(listeners, l.value);
      r := Pass;
    }

    /** An activity started: one more; a hidden UI becomes visible, HIDDEN is dropped and VISIBLE scheduled. */
    method IncrementUiCounter()
      requires Valid()
      modifies this`counter, this`uiVisible, this`pending
      ensures Valid()
      ensures counter == old(counter) + 1 && uiVisible
      ensures !old(uiVisible) ==> pending == (old(pending) - {WHAT_UI_HIDDEN}) + {WHAT_UI_VISIBLE}
      ensures old(uiVisible) ==> pending == old(pending)
    {
      counter := counter + 1;
      if !uiVisible {
        uiVisible := true;
        pending := pending - {WHAT_UI_HIDDEN};
        pending := pending + {WHAT_UI_VISIBLE};
      }
    }

    /**
     * An activity stopped: one less, clamped at 0; reaching 0 while visible
     * hides the UI, drops VISIBLE and schedules HIDDEN.
     */
    method DecrementUiCounter()
      requires Valid()
      modifies this`counter, this`uiVisible, this`pending
      ensures Valid()
      ensures counter == if old(counter) <= 1 then 0 else old(counter) - 1
      ensures old(counter) <= 1 && old(uiVisible) ==> !uiVisible && pending == (old(pending) - {WHAT_UI_VISIBLE}) + {WHAT_UI_HIDDEN}
      ensures !(old(counter) <= 1 && old(uiVisible)) ==> uiVisible == old(uiVisible) && pending == old(pending)
    {
      counter := counter - 1;
      if counter <= 0 {
        counter := 0;
        if uiVisible {
          uiVisible := false;
          pending := pending - {WHAT_UI_VISIBLE};
          pending := pending + {WHAT_UI_HIDDEN};
        }
      }
    }

    /**
     * handleMessage: a repeat of the last handled message notifies nobody;
     * otherwise it becomes the last handled one and every listener hears of
     * the transition.
     */
    method HandleMessage(what: int)
      requires Valid() && IsMessage(what)
      modifies this`lastHandledMessage, this`notices, this`handled
      ensures Valid()
      ensures lastHandledMessage == what && handled == old(handled) + [what]
      ensures old(lastHandledMessage) == what ==> notices == old(notices)
      ensures old(lastHandledMessage) != what ==> notices == old(notices) + Notify(listeners, TransitionOf(what))
      ensures Fired(WHAT_UI_HIDDEN, handled) == Fired(WHAT_UI_HIDDEN, old(handled))
                                                 + (if old(lastHandledMessage) == what then [] else [TransitionOf(what)])
    {
      FiredSnoc(WHAT_UI_HIDDEN, handled, what);
      MessagesSnoc(handled, what);
      handled := handled + [what];
      if lastHandledMessage == what {
        return;
      }
      lastHandledMessage := what;
      var t := TransitionOf(what);
      var i := 0;
      while i < |listeners|
        invariant 0 <= i <= |listeners|
        invariant notices == old(notices) + Notify(listeners[..i], t)
        invariant lastHandledMessage == what && handled == old(handled) + [what]
      {
        assert listeners[..i + 1][..i] == listeners[..i];
        notices := notices + [Notice(listeners[i], t)];
        i := i + 1;
      }
      assert listeners[..i] == listeners;
    }

    /** The handler delivers one pending message. */
    method DeliverPending()
      requires Valid() && pending != {}
      modifies this`pending, this`lastHandledMessage, this`notices, this`handled
      ensures Valid() && pending == {}
      ensures |handled| == |old(handled)| + 1 && old(pending) == {LastAfter(WHAT_UI_HIDDEN, handled)}
      ensures Alternates(Fired(WHAT_UI_HIDDEN, handled))
    {
      var what :| what in pending;
      assert pending == {what};
      pending := pending - {what};
      HandleMessage(what);
      assert LastAfter(WHAT_UI_HIDDEN, handled) == what;
      FiredAlternates(WHAT_UI_HIDDEN, handled);
    }
  }
}
