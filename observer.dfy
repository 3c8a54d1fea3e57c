/** Observer pattern: a subject keeps a set of observers and, whenever its state is
    assigned, notifies each of them once with the new state. */
module Observer {
  import opened Results
  import opened Sequences

  /** The two concrete observer classes of the demo. */
  datatype ObserverKind = ConcreteObserver1 | ConcreteObserver2

  /** The line an observer writes when it is updated. */
  function UpdateLine(kind: ObserverKind): string
  {
    match kind
    case ConcreteObserver1 => "ConcreteObserver1 - updated"
    case ConcreteObserver2 => "ConcreteObserver2 - updated"
  }

  /** The two observer classes write different lines, so a line tells which class
      was updated. */
  lemma UpdateLineIdentifiesKind(a: ObserverKind, b: ObserverKind)
    ensures UpdateLine(a) == UpdateLine(b) <==> a == b
  {
    assert UpdateLine(a)[16] == if a == ConcreteObserver1 then '1' else '2';
    assert UpdateLine(b)[16] == if b == ConcreteObserver1 then '1' else '2';
  }

  /** An observer: a back-reference to the subject it is attached to, and the last
      state it was notified of (both `None` at first). The state may be of any type. */
  class Observer<T> {
    const kind: ObserverKind
    var subject: Subject?<T>
    var observerState: Option<T>

    constructor (kind: ObserverKind)
      ensures this.kind == kind && subject == null && observerState == None
    {
      this.kind := kind;
      subject := null;
      observerState := None;
    }

    /** Records the notified state and writes this observer's line. */
    method Update(arg: Option<T>) returns (line: string)
      modifies this`observerState
      ensures observerState == arg
      ensures line == UpdateLine(kind)
    {
      observerState := arg;
      line := UpdateLine(kind);
    }
  }

  /** A subject: the set of attached observers and its own state (`None` at first). */
  class Subject<T> {
    var observers: set<Observer<T>>
    var subjectState: Option<T>

    constructor ()
      ensures observers == {} && subjectState == None
    {
      observers := {};
      subjectState := None;
    }

    /** Points the observer at this subject and adds it to the set; attaching twice
        leaves one membership. The state is untouched and nobody is notified. */
    method Attach(observer: Observer<T>)
      modifies this`observers, observer`subject
      ensures observer.subject == this
      ensures observers == old(observers) + {observer}
    {
      observer.subject := this;
      observers := observers + {observer};
    }

    /** Clears the observer's back-reference and removes it from the set; an observer
        that is not attached is not an error (only its back-reference is cleared). */
    method Detach(observer: Observer<T>)
      modifies this`observers, observer`subject
      ensures observer.subject == null
      ensures observers == old(observers) - {observer}
    {
      observer.subject := null;
      observers := observers - {observer};
    }

    /** The getter of `subject_state`: the last state assigned (or `None`). */
    function SubjectState(): Option<T>
      reads this
    {
      subjectState
    }

    /** Updates every attached observer exactly once with the current state, in the
        set's (unspecified) order, recorded in `notified`; `lines` is what they write. */
    method Notify() returns (lines: seq<string>, ghost notified: seq<Observer<T>>)
      modifies observers
      ensures Distinct(notified)
      ensures forall o :: o in notified <==> o in observers
      ensures |lines| == |notified|
      ensures forall i :: 0 <= i < |notified| ==> lines[i] == UpdateLine(notified[i].kind)
      ensures forall o :: o in observers ==> o.observerState == subjectState
      ensures forall o :: o in observers ==> o.subject == old(o.subject)
    {
      var remaining := observers;
      lines, notified := [], [];
      while remaining != {}
        invariant remaining <= observers
        invariant Distinct(notified)
        invariant forall o :: o in notified <==> o in observers && o !in remaining
        invariant |lines| == |notified|
        invariant forall i :: 0 <= i < |notified| ==> lines[i] == UpdateLine(notified[i].kind)
        invariant forall o :: o in observers && o !in remaining ==> o.observerState == subjectState
        invariant forall o :: o in observers ==> o.subject == old(o.subject)
        decreases remaining
      {
        var o :| o in remaining;
        var line := o.Update(subjectState);
        lines := lines + [line];
        notified := notified + [o];
        remaining := remaining - {o};
      }
    }

    /** The setter of `subject_state`: stores the new state, then notifies every
        attached observer once. Observers outside the set are not touched. */
    method SetSubjectState(arg: Option<T>) returns (lines: seq<string>, ghost notified: seq<Observer<T>>)
      modifies this`subjectState, observers
      ensures subjectState == arg && SubjectState() == arg && observers == old(observers)
      ensures Distinct(notified)
      ensures forall o :: o in notified <==> o in observers
      ensures |lines| == |notified|
      ensures forall i :: 0 <= i < |notified| ==> lines[i] == UpdateLine(notified[i].kind)
      ensures forall o :: o in observers ==> o.observerState == arg
      ensures forall o :: o in observers ==> o.subject == old(o.subject)
    {
      subjectState := arg;
      lines, notified := Notify();
    }
  }

  /** The demo script: two observers attached, then the state set to 123. Each of the
      two observers writes its line exactly once, in either order. */
  method Demo() returns (lines: seq<string>, state1: Option<int>, state2: Option<int>)
    ensures multiset(lines) == multiset{UpdateLine(ConcreteObserver1), UpdateLine(ConcreteObserver2)}
    ensures state1 == Some(123) && state2 == Some(123)
  {
    var subject := new Subject<int>();
    var observer1 := new Observer<int>(ConcreteObserver1);
    var observer2 := new Observer<int>(ConcreteObserver2);
    subject.Attach(observer1);
    subject.Attach(observer2);
    ghost var notified;
    lines, notified := subject.SetSubjectState(Some(123));
    state1, state2 := observer1.observerState, observer2.observerState;
    assert Elements(notified) == {observer1, observer2};
    DistinctCardinality(notified);
    assert |notified| == 2;
    assert lines == [UpdateLine(notified[0].kind), UpdateLine(notified[1].kind)];
    assert notified == [observer1, observer2] || notified == [observer2, observer1];
  }
}
