/** The modal container built by `useModal`. */
module ModalHook {
  import opened Common

  /** The container's observable state: whether the modal shows, and what it was shown with. */
  datatype ModalData<V> = ModalData(visible: bool, payload: Record<V>)

  function Initial<V>(): (d: ModalData<V>)
  {
    ModalData(false, map[])
  }

  /** `showModal(payload)`; an omitted payload defaults to `{}`. */
  function Show<V>(d: ModalData<V>, payload: Option<Record<V>>): (r: ModalData<V>)
  {
    ModalData(true, if payload.Some? then payload.value else map[])
  }

  function Hide<V>(d: ModalData<V>): (r: ModalData<V>)
  {
    ModalData(false, map[])
  }

  /** Showing overrides any earlier show and shows `{}` when the payload is omitted; hiding
      always returns to the initial state, so a show followed by a hide leaves no trace. */
  lemma ShowHide<V>(d: ModalData<V>, p: Option<Record<V>>, q: Option<Record<V>>)
    ensures Show(Show(d, p), q) == Show(d, q)
    ensures Hide(d) == Initial()
    ensures Hide(Show(d, p)) == Initial()
    ensures Show(d, p).visible && (p.Some? ==> Show(d, p).payload == p.value)
    ensures Show(d, None) == ModalData(true, map[])
  {
  }

  class ModalContainer<V> {
    var visible: bool
    var payload: Record<V>

    ghost function Data(): ModalData<V>
      reads this
    {
      ModalData(visible, payload)
    }

    constructor ()
      ensures Data() == Initial()
      ensures !visible && payload == map[]
    {
      visible := false;
      payload := map[];
    }

    method ShowModal(p: Option<Record<V>>)
      modifies this
      ensures Data() == Show(old(Data()), p)
    {
      payload := if p.Some? then p.value else map[];
      visible := true;
    }

    method HideModal()
      modifies this
      ensures Data() == Hide(old(Data()))
    {
      payload := map[];
      visible := false;
    }
  }
}
