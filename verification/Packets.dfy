/** The packet that travels from the queue to its verdict: a view, then owned bytes, then a shell. */
module Packets {
  import opened Wire

  datatype Verdict = ALLOW | BLOCK

  // At most one owner of the bytes at any time; a shell has none.
  datatype Store = View(bytes: Bytes) | Owned(bytes: Bytes) | Shell

  datatype Packet = Packet(id: nat, len: nat, store: Store, verdict: Verdict, pending: bool) {
    predicate HasBytes() { !store.Shell? }
    function Data(): Bytes { if store.Shell? then [] else store.bytes }
    predicate IsShell() { store.Shell? }
    function Released(): Packet { this.(store := Shell) }
  }

  /** The state of a variable that has been moved from: empty, and with no verdict due. */
  const HUSK := Packet(0, 0, Shell, ALLOW, false)

  /** A variable of type Packet: moving out of it leaves a husk, so nothing is ever answered twice. */
  class PacketVar {
    var p: Packet

    /** Every new packet has a verdict due; without bytes it starts out as a shell. */
    constructor (bytes: Option<Bytes>, id: nat)
      ensures p == match bytes
                   case Some(b) => Packet(id, |b|, View(b), ALLOW, true)
                   case None => Packet(id, 0, Shell, ALLOW, true)
    {
      p := match bytes
           case Some(b) => Packet(id, |b|, View(b), ALLOW, true)
           case None => Packet(id, 0, Shell, ALLOW, true);
    }

    /** A variable initialised by moving a packet in. */
    constructor Holding(q: Packet)
      ensures p == q
    {
      p := q;
    }

    method Move() returns (q: Packet)
      modifies this
      ensures q == old(p) && p == HUSK
    {
      q, p := p, HUSK;
    }

    /** Assignment by move: the old contents of the target are gone, the source is a husk. */
    method Assign(o: PacketVar)
      modifies this, o
      ensures p == old(o.p)
      ensures o != this ==> o.p == HUSK
    {
      if this != o {
        p := o.p;
        o.p := HUSK;
      }
    }

    /** view -> owned; anything else stays as it is. No byte is lost or changed. */
    method Materialize()
      modifies this
      ensures p == old(p).(store := p.store) && !p.store.View?
      ensures p.Data() == old(p).Data()
      ensures old(p).store.View? && old(p).len > 0 && |old(p).Data()| == old(p).len ==> p.HasBytes()
      ensures !old(p).store.View? ==> p == old(p)
    {
      if !p.store.View? { return; }
      if |p.store.bytes| > 0 {
        p := p.(store := Owned(p.store.bytes));
      } else {
        p := p.(store := Shell);
      }
    }

    method ReleaseBytes()
      modifies this
      ensures p == old(p).Released()
    {
      p := p.(store := Shell);
    }

    method SetVerdict(v: Verdict)
      modifies this
      ensures p == old(p).(verdict := v)
    {
      p := p.(verdict := v);
    }

    method ClearPending()
      modifies this
      ensures p == old(p).(pending := false)
    {
      p := p.(pending := false);
    }
  }
}
