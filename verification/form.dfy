/** The form container built by `useForm`. */
module FormHook {
  import opened Common

  /** The container's observable state: the fields being edited and `sediments`, the fields
      as they were when a submit last succeeded. */
  datatype FormData<V> = FormData(loading: bool, fields: Record<V>, sediments: Record<V>)

  const BusyMessage := "submit:Cannot be called while loading"

  // ---------------------------------------------------------------------------------------
  // Specification: the container's transitions on values

  function Initial<V>(fields: Record<V>): (d: FormData<V>)
  {
    FormData(false, fields, fields)
  }

  /** `{...fields, ...patch}`: every key of the patch takes the patch's value, every other
      key keeps its value, and no other key appears. */
  function Merge<V>(fields: Record<V>, patch: Record<V>): (merged: Record<V>)
    ensures merged.Keys == fields.Keys + patch.Keys
    ensures forall k :: k in patch ==> merged[k] == patch[k]
    ensures forall k :: k in fields && k !in patch ==> merged[k] == fields[k]
  {
    fields + patch
  }

  function WithFields<V>(d: FormData<V>, patch: Record<V>): (r: FormData<V>)
  {
    d.(fields := Merge(d.fields, patch))
  }

  /** `submit` up to its `await`; a submit carries no request data. */
  function Begin<V>(d: FormData<V>): (r: (FormData<V>, Launch<()>))
  {
    if d.loading then (d, Rejected(BusyMessage)) else (d.(loading := true), Launched(()))
  }

  /** The success branch of `submit`: it records the fields current at completion. */
  function Succeed<V>(d: FormData<V>): (r: FormData<V>)
  {
    d.(sediments := d.fields, loading := false)
  }

  /** The catch branch of `submit`. */
  function Fail<V>(d: FormData<V>): (r: FormData<V>)
  {
    d.(loading := false)
  }

  /** `reset`, given the `fields` option the hook was last rendered with. */
  function WithInitialFields<V>(d: FormData<V>, fields: Record<V>): (r: FormData<V>)
  {
    d.(loading := false, fields := fields)
  }

  // ---------------------------------------------------------------------------------------
  // Properties of the transitions

  /** Applying the same patch twice is the same as applying it once, and a later patch wins
      over an earlier one on the keys they share. */
  lemma MergeLaws<V>(fields: Record<V>, p: Record<V>, q: Record<V>)
    ensures Merge(Merge(fields, p), p) == Merge(fields, p)
    ensures Merge(Merge(fields, p), q) == Merge(fields, Merge(p, q))
  {
  }

  /** `setFields` touches neither `loading` nor `sediments`. */
  lemma SetFieldsKeepsRest<V>(d: FormData<V>, patch: Record<V>)
    ensures WithFields(d, patch).loading == d.loading
    ensures WithFields(d, patch).sediments == d.sediments
  {
  }

  /** A submit is refused exactly while one is loading, and a refused submit changes nothing;
      a started one only sets `loading`. */
  lemma BeginGuard<V>(d: FormData<V>)
    ensures Begin(d).1.Rejected? <==> d.loading
    ensures d.loading ==> Begin(d) == (d, Rejected(BusyMessage))
    ensures !d.loading ==> Begin(d).0 == FormData(true, d.fields, d.sediments)
  {
  }

  /** A successful submit makes `sediments` equal to the fields; a failed one keeps the old
      `sediments`; both leave the fields alone and clear `loading`. */
  lemma SubmitSettles<V>(d: FormData<V>)
    ensures var s := Succeed(d); !s.loading && s.sediments == s.fields == d.fields
    ensures var s := Fail(d); !s.loading && s.sediments == d.sediments && s.fields == d.fields
  {
  }

  /** `reset` puts back the given fields, clears `loading` and keeps `sediments`; edits made
      since do not survive it. */
  lemma ResetRestores<V>(d: FormData<V>, fields: Record<V>, patch: Record<V>)
    ensures WithInitialFields(d, fields) == FormData(false, fields, d.sediments)
    ensures WithInitialFields(WithFields(d, patch), fields) == WithInitialFields(d, fields)
  {
  }

  // ---------------------------------------------------------------------------------------
  // Overlapping calls: `reset` lifts the loading guard

  /** What can happen to a form: a call of `setFields`, `submit` or `reset`, or the
      settlement of one pending submit. */
  datatype FormEvent<V> = SetFields(patch: Record<V>) | Submit | ResetTo(fields: Record<V>) | Resolve | Throw

  /** The form together with the number of submits started and not yet settled. */
  datatype Session<V> = Session(data: FormData<V>, inFlight: nat)

  function Step<V>(s: Session<V>, e: FormEvent<V>): (r: Session<V>)
  {
    match e
    case SetFields(patch) => s.(data := WithFields(s.data, patch))
    case Submit =>
      var (next, launch) := Begin(s.data);
      Session(next, if launch.Launched? then s.inFlight + 1 else s.inFlight)
    case ResetTo(fields) => s.(data := WithInitialFields(s.data, fields))
    case Resolve => if s.inFlight == 0 then s else Session(Succeed(s.data), s.inFlight - 1)
    case Throw => if s.inFlight == 0 then s else Session(Fail(s.data), s.inFlight - 1)
  }

  function Run<V>(s: Session<V>, events: seq<FormEvent<V>>): (r: Session<V>)
    decreases |events|
  {
    if events == [] then s else Run(Step(s, events[0]), events[1..])
  }

  /** `loading` is set exactly while one submit is pending, and never more than one is. */
  ghost predicate SingleFlight<V>(s: Session<V>)
  {
    s.inFlight <= 1 && (s.data.loading <==> s.inFlight == 1)
  }

  lemma StepKeepsSingleFlight<V>(s: Session<V>, e: FormEvent<V>)
    requires SingleFlight(s)
    requires !e.ResetTo?
    ensures SingleFlight(Step(s, e))
  {
  }

  /** Without `reset`, the guard keeps at most one submit in flight. */
  lemma {:induction false} ResetFreeRunSingleFlight<V>(s: Session<V>, events: seq<FormEvent<V>>)
    requires SingleFlight(s)
    requires forall i :: 0 <= i < |events| ==> !events[i].ResetTo?
    ensures SingleFlight(Run(s, events))
    decreases |events|
  {
    if events != [] {
      StepKeepsSingleFlight(s, events[0]);
      ResetFreeRunSingleFlight(Step(s, events[0]), events[1..]);
    }
  }

  /** `reset` during a pending submit clears `loading`, so a second submit is accepted while
      the first is still in flight. */
  lemma ResetAllowsOverlap<V>(fields: Record<V>, restored: Record<V>)
    ensures var s := Run(Session(Initial(fields), 0), [Submit, ResetTo(restored), Submit]);
      s.inFlight == 2 && s.data.loading
  {
    var s0 := Session(Initial(fields), 0);
    var s1 := Step(s0, Submit);
    var s2 := Step(s1, ResetTo(restored));
    var s3 := Step(s2, Submit);
    assert Run(s3, []) == s3;
    assert Run(s0, [Submit, ResetTo(restored), Submit]) == Run(s1, [ResetTo(restored), Submit]);
    assert Run(s1, [ResetTo(restored), Submit]) == Run(s2, [Submit]);
    assert Run(s2, [Submit]) == Run(s3, []);
  }

  // ---------------------------------------------------------------------------------------
  // The container

  class FormContainer<V> {
    var loading: bool
    var fields: Record<V>
    var sediments: Record<V>

    ghost function Data(): FormData<V>
      reads this
    {
      FormData(loading, fields, sediments)
    }

    constructor (fields: Record<V>)
      ensures Data() == Initial(fields)
    {
      loading := false;
      this.fields := fields;
      sediments := fields;
    }

    method SetFields(patch: Record<V>)
      modifies this
      ensures Data() == WithFields(old(Data()), patch)
    {
      fields := fields + patch;
    }

    /** `submit` up to its `await`: refused while loading, else marks the form loading. */
    method Submit() returns (launch: Launch<()>)
      modifies this
      ensures (Data(), launch) == Begin(old(Data()))
      ensures old(loading) ==> launch == Rejected(BusyMessage) && unchanged(this)
    {
      if loading {
        return Rejected(BusyMessage);
      }
      loading := true;
      launch := Launched(());
    }

    /** The rest of `submit` once `onSubmit` has resolved. */
    method ResolveSubmit()
      modifies this
      ensures Data() == Succeed(old(Data()))
    {
      sediments := fields;
      loading := false;
    }

    /** The rest of `submit` once `onSubmit` has thrown `err`, which it re-raises. */
    method RejectSubmit<E>(err: E) returns (raised: E)
      modifies this
      ensures raised == err
      ensures Data() == Fail(old(Data()))
    {
      loading := false;
      raised := err;
    }

    /** `submit` on a form without `onSubmit`: nothing is awaited, so it completes at once. */
    method SubmitWithoutHandler() returns (launch: Launch<()>)
      modifies this
      ensures launch == Begin(old(Data())).1
      ensures Data() == if old(loading) then old(Data()) else Succeed(Begin(old(Data())).0)
    {
      launch := Submit();
      if launch.Launched? {
        ResolveSubmit();
      }
    }

    /** `reset`, given the `fields` option the hook was last rendered with. */
    method Reset(initialFields: Record<V>)
      modifies this
      ensures Data() == WithInitialFields(old(Data()), initialFields)
    {
      loading := false;
      fields := initialFields;
    }
  }
}
