/** The kernel side of the network quota: the four maps of laxcode-manager/ebpf/quota.c, the bucket reads
    and deletes of laxcode-manager/bpf_linux.go, and the charge that the packet hook makes under its lock.
    A map update replaces the element, so the counters of `usage` live in numbered cells: a hook that has
    looked a cell up keeps charging that cell, whether or not the map still points to it. */
module QuotaKernel {
  import opened Words

  datatype Meta = Meta(user: nat, deadline: nat)

  datatype Counter = Counter(rx: nat, tx: nat, dropBytes: nat, dropPackets: nat)

  datatype Kernel = Kernel(pointer: map<nat, nat>, meta: map<nat, Meta>, grants: map<nat, nat>, usage: map<nat, nat>)

  const EMPTY_MAPS := Kernel(map[], map[], map[], map[])

  function Find<V>(m: map<nat, V>, k: nat): Option<V> {
    if k in m then Some(m[k]) else None
  }

  function Total(c: Counter): nat {
    c.rx + c.tx
  }

  predicate Complete(k: Kernel, b: nat) {
    b in k.meta && b in k.grants && b in k.usage
  }

  predicate Vacant(k: Kernel, b: nat) {
    b !in k.meta && b !in k.grants && b !in k.usage
  }

  /** The hook's critical section: charge the packet against the limit read before the lock, or count a drop. */
  function Charge(c: Counter, limit: nat, len: nat, ingress: bool): (r: (Counter, bool))
    requires c.rx < TWO64 && c.tx < TWO64 && limit < TWO64
    ensures r.1 ==> Total(r.0) == Total(c) + len <= limit && c.rx <= r.0.rx && c.tx <= r.0.tx
    ensures !r.1 ==> r.0.rx == c.rx && r.0.tx == c.tx
    ensures r.1 <==> Total(c) + len <= limit
  {
    var used := Add64(c.rx, c.tx);
    if used >= c.rx && used <= limit && len <= Sub64(limit, used) then
      (if ingress then c.(rx := Add64(c.rx, len)) else c.(tx := Add64(c.tx, len)), true)
    else
      (c.(dropBytes := Add64(c.dropBytes, len), dropPackets := Add64(c.dropPackets, 1)), false)
  }
}
