/**
 The agent's credential and its renewal arithmetic. Times are integer
 nanoseconds; multiplying a duration by a fraction truncates toward zero.
 */
module Identity {
  import opened Prelude

  type Pem = string

  datatype Leaf = Leaf(notBefore: int, notAfter: int)

  datatype Material = Material(certificate: Pem, key: Pem, caBundle: Pem, leaf: Leaf)

  /** A third of a duration, truncated toward zero. */
  function Third(duration: int): int {
    if 0 <= duration then duration / 3 else -(-duration / 3)
  }

  /** Two thirds of the way through the certificate's own validity. */
  function RenewAt(leaf: Leaf): int {
    leaf.notBefore + Third(2 * (leaf.notAfter - leaf.notBefore))
  }

  predicate LeafDue(leaf: Leaf, now: int) {
    RenewAt(leaf) <= now
  }

  /** A third of the remaining life, or nothing once the certificate has expired. */
  function MinRenewalInterval(leaf: Option<Leaf>, now: int): int {
    if leaf.None? then 0
    else
      var remaining := leaf.value.notAfter - now;
      if remaining <= 0 then 0 else Third(remaining)
  }

  function HeldLeaf(material: Option<Material>): Option<Leaf> {
    if material.Some? then Some(material.value.leaf) else None
  }

  predicate Due(material: Option<Material>, now: int) {
    material.Some? && LeafDue(material.value.leaf, now)
  }

  /** The current identity, swappable while in use. */
  class Holder {
    var material: Option<Material>

    constructor (material: Option<Material>)
      ensures this.material == material
    {
      this.material := material;
    }

    method Replace(material: Material)
      modifies this
      ensures this.material == Some(material)
    {
      this.material := Some(material);
    }

    predicate DueForRenewal(now: int)
      reads this
    {
      Due(material, now)
    }

    function MinInterval(now: int): int
      reads this
    {
      MinRenewalInterval(HeldLeaf(material), now)
    }
  }

  // ------------------------------------------------------ renewal arithmetic

  /**
   A certificate issued at `issued`, backdated by B and with L left to live, is
   already due the moment it is issued exactly when 2 * L <= B + 2.
   */
  lemma {:induction false} DueAtIssue(leaf: Leaf, issued: int)
    requires leaf.notBefore <= issued <= leaf.notAfter
    ensures
      var backdate, left := issued - leaf.notBefore, leaf.notAfter - issued;
      LeafDue(leaf, issued) <==> 2 * left <= backdate + 2
  {
    var life := leaf.notAfter - leaf.notBefore;
    assert RenewAt(leaf) == leaf.notBefore + 2 * life / 3;
  }

  /**
   The throttle fixed at issue never postpones a due renewal exactly when
   B <= L + L % 3, so whenever the remaining life is at least the backdate.
   */
  lemma {:induction false} ThrottleNeverDelays(leaf: Leaf, issued: int)
    requires leaf.notBefore <= issued <= leaf.notAfter
    ensures
      var backdate, left := issued - leaf.notBefore, leaf.notAfter - issued;
      issued + MinRenewalInterval(Some(leaf), issued) <= RenewAt(leaf) <==> backdate <= left + left % 3
  {
    var backdate, left := issued - leaf.notBefore, leaf.notAfter - issued;
    assert RenewAt(leaf) == leaf.notBefore + 2 * (left + backdate) / 3;
    assert MinRenewalInterval(Some(leaf), issued) == left / 3;
  }

  /** Both bounds leave a third of the remaining life before expiry. */
  lemma {:induction false} RoomBeforeExpiry(leaf: Leaf, at: int)
    requires leaf.notBefore <= at < leaf.notAfter
    ensures
      var third := (leaf.notAfter - at) / 3;
      && RenewAt(leaf) + third <= leaf.notAfter
      && at + MinRenewalInterval(Some(leaf), at) + third <= leaf.notAfter
  {
    var life := leaf.notAfter - leaf.notBefore;
    assert RenewAt(leaf) == leaf.notBefore + 2 * life / 3;
  }
}
