/**
 The sliced rate limiter of blk-throttle.c, for one direction of one group, and
 the token-bucket bound it enforces over any mix of extended, trimmed and newly
 started slices.
 */
module ThrottleSlice {

  const UINT_MAX: nat := 0xFFFF_FFFF
  const NO_BPS: nat := 0xFFFF_FFFF_FFFF_FFFF     // (u64) -1
  const NO_IOPS: nat := UINT_MAX                 // (unsigned int) -1

  // A throttled bio.
  datatype TBio = TBio(id: nat, size: nat)

  datatype Rate = Rate(bps: nat, iops: nat)

  // One direction of a group: its slice and what was charged in it, and every
  // bio charged so far.
  datatype Slice = Slice(start: int, end: int, bytes: nat, ios: nat, sent: seq<TBio>)

  // HZ, and throtl_slice = HZ / 10.
  datatype Clock = Clock(hz: nat, slice: nat)

  ghost predicate ClockOk(c: Clock) { c.slice == c.hz / 10 && c.slice > 0 }

  ghost predicate RateOk(r: Rate) { r.bps > 0 && r.iops > 0 }

  function Max(a: int, b: int): int { if a < b then b else a }

  function Min(a: int, b: int): int { if a < b then a else b }

  function RoundUp(x: int, y: nat): int
    requires y > 0
  {
    (x + y - 1) / y * y
  }

  predicate NoRule(r: Rate) { r.bps == NO_BPS && r.iops == NO_IOPS }

  // throtl_start_new_slice, throtl_extend_slice, throtl_slice_used
  function Fresh(c: Clock, s: Slice, now: int): Slice {
    s.(start := now, end := now + c.slice, bytes := 0, ios := 0)
  }

  function Extend(c: Clock, s: Slice, end: int): Slice
    requires c.slice > 0
  {
    s.(end := RoundUp(end, c.slice))
  }

  predicate Used(s: Slice, now: int) { !(s.start <= now <= s.end) }

  // The elapsed time the checks grant.
  function Granted(c: Clock, s: Slice, now: int): int
    requires c.slice > 0
  {
    RoundUp(if now == s.start then c.slice else now - s.start, c.slice)
  }

  function BytesAllowed(c: Clock, r: Rate, s: Slice, now: int): int
    requires c.slice > 0 && c.hz > 0
  {
    r.bps * Granted(c, s, now) / c.hz
  }

  function IosAllowed(c: Clock, r: Rate, s: Slice, now: int): int
    requires c.slice > 0 && c.hz > 0
  {
    var tmp := r.iops * Granted(c, s, now) / c.hz;
    if tmp > UINT_MAX then UINT_MAX else tmp
  }

  // tg_with_in_bps_limit and tg_with_in_iops_limit: 0 when the bio may go, or
  // the jiffies to wait.
  function BpsWait(c: Clock, r: Rate, s: Slice, size: nat, now: int): int
    requires ClockOk(c) && RateOk(r)
  {
    var allowed := BytesAllowed(c, r, s, now);
    if s.bytes + size <= allowed then 0
    else Max((s.bytes + size - allowed) * c.hz / r.bps, 1) + Granted(c, s, now) - (now - s.start)
  }

  function IopsWait(c: Clock, r: Rate, s: Slice, now: int): int
    requires ClockOk(c) && RateOk(r)
  {
    if s.ios + 1 <= IosAllowed(c, r, s, now) then 0
    else Max((s.ios + 1) * c.hz / r.iops + 1 - (now - s.start), 1)
  }

  datatype Verdict = Verdict(slice: Slice, ok: bool, wait: int)

  // The slice as tg_may_dispatch finds or makes it.
  function Current(c: Clock, s: Slice, now: int): Slice
    requires c.slice > 0
  {
    if Used(s, now) then Fresh(c, s, now)
    else if s.end < now + c.slice then Extend(c, s, now + c.slice)
    else s
  }

  // tg_may_dispatch
  function MayDispatch(c: Clock, r: Rate, s: Slice, size: nat, now: int): Verdict
    requires ClockOk(c) && RateOk(r)
  {
    if NoRule(r) then Verdict(s, true, 0)
    else
      var t := Current(c, s, now);
      var bw := BpsWait(c, r, t, size, now);
      var iw := if bw == 0 then IopsWait(c, r, t, now) else 0;
      var wait := Max(bw, iw);
      if wait == 0 then Verdict(t, true, 0)
      else Verdict(if t.end < now + wait then Extend(c, t, now + wait) else t, false, wait)
  }

  // throtl_charge_bio
  function Charge(s: Slice, b: TBio): Slice {
    s.(bytes := s.bytes + b.size, ios := s.ios + 1, sent := s.sent + [b])
  }

  // What a limit grants in n whole slices.
  function Earned(c: Clock, limit: nat, n: nat): nat
    requires ClockOk(c)
  {
    limit * c.slice * n / c.hz
  }

  // throtl_trim_slice
  function Trim(c: Clock, r: Rate, s: Slice, now: int): Slice
    requires ClockOk(c)
  {
    if Used(s, now) then s
    else
      var t := Extend(c, s, now + c.slice);
      var n := (now - s.start) / c.slice;
      var bytesTrim, ioTrim := Earned(c, r.bps, n), Earned(c, r.iops, n);
      if n == 0 || (bytesTrim == 0 && ioTrim == 0) then t
      else t.(bytes := if s.bytes >= bytesTrim then s.bytes - bytesTrim else 0,
              ios := if s.ios >= ioTrim then s.ios - ioTrim else 0,
              start := s.start + n * c.slice)
  }

  // A bio that may go is charged and the slice trimmed.
  function Sent(c: Clock, r: Rate, s: Slice, b: TBio, now: int): Slice
    requires ClockOk(c)
  {
    Trim(c, r, Charge(s, b), now)
  }

  // ------------------------------------------------------------- arithmetic

  lemma RoundUpBounds(x: int, y: nat)
    requires y > 0
    ensures x <= RoundUp(x, y) < x + y
  {
  }

  lemma MulLe(k: nat, a: int, b: int)
    requires a <= b
    ensures k * a <= k * b
  {
  }

  lemma GrantedBounds(c: Clock, s: Slice, now: int)
    requires ClockOk(c) && s.start <= now
    ensures now - s.start <= Granted(c, s, now) <= now - s.start + c.slice
  {
    RoundUpBounds(if now == s.start then c.slice else now - s.start, c.slice);
    if now == s.start {
      assert (c.slice + c.slice - 1) / c.slice == 1;
    }
  }

  // Floor division undone.
  lemma FloorBound(k: nat, x: int, hz: nat, a: int)
    requires hz > 0 && a <= k * x / hz
    ensures hz * a <= k * x
  {
    assert hz * (k * x / hz) <= k * x;
    MulLe(hz, a, k * x / hz);
  }

  // A refused bio is told to wait.
  lemma RefusedWaits(c: Clock, r: Rate, s: Slice, size: nat, now: int)
    requires ClockOk(c) && RateOk(r)
    ensures var v := MayDispatch(c, r, s, size, now);
            if v.ok then v.wait == 0 else v.wait >= 1
  {
    var t := Current(c, s, now);
    GrantedBounds(c, t, now);
  }

  // Asking again at the same time gives the same answer.
  lemma MayDispatchStable(c: Clock, r: Rate, s: Slice, size: nat, now: int)
    requires ClockOk(c) && RateOk(r)
    ensures var v := MayDispatch(c, r, s, size, now);
            var u := MayDispatch(c, r, v.slice, size, now);
            u.ok == v.ok && u.wait == v.wait
  {
    var v := MayDispatch(c, r, s, size, now);
    var t := Current(c, s, now);
    RoundUpBounds(now + c.slice, c.slice);
    RoundUpBounds(now + v.wait, c.slice);
    RefusedWaits(c, r, s, size, now);
    if !NoRule(r) {
      assert !Used(v.slice, now) && v.slice.end >= now + c.slice;
      assert v.slice == t.(end := v.slice.end);
    }
  }

  // ------------------------------------------------------- the exact answer

  lemma WholeSlices(n: int, y: nat)
    requires y > 0
    ensures n * y % y == 0
  {
    var x := n * y;
    var q, r := x / y, x % y;
    assert x == y * q + r && 0 <= r < y;
    Distribute(y, n, -q);
    hide *;
    OnlyZero(n - q, y, r);
  }

  lemma OnlyZero(d: int, y: nat, r: int)
    requires y * d == r && 0 <= r < y
    ensures d == 0 && r == 0
  {
    if d >= 1 { MulLe(y, 1, d); }
    if d <= -1 { MulLe(y, d, -1); }
  }

  // m slices, rounded up.
  lemma GrantedSlices(c: Clock, s: Slice, now: int, m: int)
    requires ClockOk(c) && s.start <= now
    requires if now == s.start then m == 1 else (m - 1) * c.slice < now - s.start <= m * c.slice
    ensures Granted(c, s, now) == m * c.slice
  {
    var x := if now == s.start then c.slice else now - s.start;
    RoundUpBounds(x, c.slice);
    var k := (x + c.slice - 1) / c.slice;
    Distribute(c.slice, m, -1);
    Distribute(c.slice, k, -m);
    hide RoundUp;
    Between(k - m, c.slice, k * c.slice - m * c.slice);
  }

  lemma Between(d: int, y: nat, r: int)
    requires y > 0 && d * y == r && 0 - y < r < y
    ensures d == 0
  {
    if d >= 1 { MulLe(y, 1, d); }
    if d <= -1 { MulLe(y, d, -1); }
  }

  // tg_may_dispatch says yes exactly when the bio, on top of what the slice was
  // charged, is within what the limits grant for the time elapsed: m slices, where
  // a slice just started counts as one and a part of a slice as a whole one.
  lemma OkExactly(c: Clock, r: Rate, s: Slice, size: nat, now: int, m: int)
    requires ClockOk(c) && RateOk(r) && !NoRule(r) && s.start <= now
    requires var t := MayDispatch(c, r, s, size, now).slice;
             if now == t.start then m == 1 else (m - 1) * c.slice < now - t.start <= m * c.slice
    ensures var v := MayDispatch(c, r, s, size, now);
            v.ok <==> v.slice.bytes + size <= r.bps * (m * c.slice) / c.hz
                      && v.slice.ios + 1 <= Min(r.iops * (m * c.slice) / c.hz, UINT_MAX)
  {
    var t := Current(c, s, now);
    GrantedSlices(c, t, now, m);
    RefusedWaits(c, r, s, size, now);
    GrantedBounds(c, t, now);
    hide Granted;
  }

  // On a slice that ran out it looks at one fresh slice and nothing else.
  lemma OkFresh(c: Clock, r: Rate, s: Slice, size: nat, now: int)
    requires ClockOk(c) && RateOk(r) && !NoRule(r) && s.end < now && s.start <= now
    ensures var v := MayDispatch(c, r, s, size, now);
            && v.slice.start == now && v.slice.bytes == 0 && v.slice.ios == 0
            && (if v.wait <= c.slice then v.slice.end == now + c.slice else now + v.wait <= v.slice.end)
            && (v.ok <==> size <= r.bps * c.slice / c.hz && 1 <= r.iops * c.slice / c.hz)
  {
    OkExactly(c, r, s, size, now, 1);
  }

  // ... and on one that did not, it keeps what was charged, and lets it end no
  // earlier than a slice from now, at a whole number of slices if it moved.
  lemma SliceStays(c: Clock, r: Rate, s: Slice, size: nat, now: int)
    requires ClockOk(c) && RateOk(r) && !NoRule(r) && s.start <= now <= s.end
    ensures var v := MayDispatch(c, r, s, size, now);
            && v.slice == s.(end := v.slice.end) && s.end <= v.slice.end && now + c.slice <= v.slice.end
            && (v.slice.end == s.end ||
                (v.slice.end % c.slice == 0 && v.slice.end < now + Max(c.slice, v.wait) + c.slice))
  {
    var v := MayDispatch(c, r, s, size, now);
    EndsWhole(c, s, now);
    RoundUpBounds(now + v.wait, c.slice);
    WholeSlices((now + v.wait + c.slice - 1) / c.slice, c.slice);
    hide RoundUp, BpsWait, IopsWait;
  }

  // A bio over its bytes waits until what is granted covers it, to within a jiffy:
  // at rate bps the bytes charged and its own take between e and e + 1 jiffies,
  // where e is the time elapsed when the wait is over.
  lemma BytesWait(c: Clock, r: Rate, s: Slice, size: nat, now: int)
    requires ClockOk(c) && RateOk(r) && s.start <= now && BpsWait(c, r, s, size, now) != 0
    ensures var e, g := now - s.start + BpsWait(c, r, s, size, now), Granted(c, s, now);
            && c.hz * (s.bytes + size) < r.bps * (e + 1)
            && (e == g + 1 || r.bps * e < c.hz * (s.bytes + size + 1))
  {
    var g := Granted(c, s, now);
    var a := r.bps * g / c.hz;
    var x := s.bytes + size - a;
    assert c.hz * a <= r.bps * g < c.hz * a + c.hz;
    var q := x * c.hz / r.bps;
    assert r.bps * q <= x * c.hz < r.bps * q + r.bps;
    assert c.hz * (s.bytes + size) == c.hz * a + c.hz * x;
    var m := Max(q, 1);
    MulLe(r.bps, q, m);
    Distribute(r.bps, g, m + 1);
    Distribute(r.bps, g, m);
    Distribute(r.bps, m, 1);
    assert now - s.start + BpsWait(c, r, s, size, now) == g + m;
    hide Granted, BpsWait;
  }

  // A bio over its count waits until the time elapsed covers one more, and at most
  // a jiffy longer.
  lemma IosWait(c: Clock, r: Rate, s: Slice, now: int)
    requires ClockOk(c) && RateOk(r) && s.start <= now && IopsWait(c, r, s, now) != 0
    ensures var w := IopsWait(c, r, s, now);
            && w >= 1 && c.hz * (s.ios + 1) < r.iops * (now - s.start + w)
            && (w == 1 || r.iops * (now - s.start + w - 1) <= c.hz * (s.ios + 1))
  {
    var n := (s.ios + 1) * c.hz;
    var q := n / r.iops;
    assert IopsWait(c, r, s, now) == Max(q + 1 - (now - s.start), 1);
    Quotient(n, r.iops);
    hide IopsWait;
    NextJiffy(r.iops, n, q, now - s.start);
  }

  lemma Quotient(n: int, k: nat)
    requires k > 0
    ensures k * (n / k) <= n < k * (n / k) + k
  {
  }

  // The jiffy after q, or the next one.
  lemma NextJiffy(k: nat, n: int, q: int, t: int)
    requires k * q <= n < k * q + k
    ensures var w := Max(q + 1 - t, 1);
            w >= 1 && n < k * (t + w) && (w == 1 || k * (t + w - 1) <= n)
  {
    var w := Max(q + 1 - t, 1);
    MulLe(k, q + 1, t + w);
    Distribute(k, q, 1);
  }

  // So a refused bio is told the right time to wait.  With e the time elapsed in
  // the slice when the wait is over: what its bytes lack takes between e and e + 1
  // jiffies to earn, or it waits a jiffy past the m slices granted; if only its
  // count is over, e is the first jiffy that earns one more, or the next one.
  lemma WaitExactly(c: Clock, r: Rate, s: Slice, size: nat, now: int, m: int)
    requires ClockOk(c) && RateOk(r) && !NoRule(r) && s.start <= now && !MayDispatch(c, r, s, size, now).ok
    requires var t := MayDispatch(c, r, s, size, now).slice;
             if now == t.start then m == 1 else (m - 1) * c.slice < now - t.start <= m * c.slice
    ensures var v := MayDispatch(c, r, s, size, now);
            var e := now - v.slice.start + v.wait;
            if v.slice.bytes + size > r.bps * (m * c.slice) / c.hz then
              && c.hz * (v.slice.bytes + size) < r.bps * (e + 1)
              && (e == m * c.slice + 1 || r.bps * e < c.hz * (v.slice.bytes + size + 1))
            else
              && c.hz * (v.slice.ios + 1) < r.iops * e
              && (v.wait == 1 || r.iops * (e - 1) <= c.hz * (v.slice.ios + 1))
  {
    var t := Current(c, s, now);
    GrantedSlices(c, t, now, m);
    RefusedWaits(c, r, s, size, now);
    GrantedBounds(c, t, now);
    if BpsWait(c, r, t, size, now) != 0 { BytesWait(c, r, t, size, now); } else { IosWait(c, r, t, now); }
    hide Granted;
  }

  // What a sent bio leaves charged: all of it while the slice is younger than its
  // own length, and otherwise less what whole slices have earned, if they earned
  // anything; the slice then starts less than a slice ago.
  lemma SentExactly(c: Clock, r: Rate, s: Slice, b: TBio, now: int)
    requires ClockOk(c) && s.start <= now <= s.end
    ensures var t := Sent(c, r, s, b, now);
            var n := (now - s.start) / c.slice;
            var bytes, ios := r.bps * c.slice * n / c.hz, r.iops * c.slice * n / c.hz;
            && t.sent == s.sent + [b] && t.end % c.slice == 0 && now + c.slice <= t.end < now + 2 * c.slice
            && (if bytes == 0 && ios == 0 then
                  t.start == s.start && t.bytes == s.bytes + b.size && t.ios == s.ios + 1
                else
                  && now - c.slice < t.start <= now && (t.start - s.start) % c.slice == 0
                  && t.bytes == Max(s.bytes + b.size - bytes, 0) && t.ios == Max(s.ios + 1 - ios, 0))
  {
    hide RoundUp;
    var n := (now - s.start) / c.slice;
    EndsWhole(c, s, now);
    WholeSlices(n, c.slice);
    Quotient(now - s.start, c.slice);
    if n == 0 { assert Earned(c, r.bps, 0) == 0 && Earned(c, r.iops, 0) == 0; }
  }

  lemma EndsWhole(c: Clock, s: Slice, now: int)
    requires ClockOk(c)
    ensures var end := RoundUp(now + c.slice, c.slice); end % c.slice == 0 && now + c.slice <= end < now + 2 * c.slice
  {
    RoundUpBounds(now + c.slice, c.slice);
    WholeSlices((now + c.slice + c.slice - 1) / c.slice, c.slice);
  }

  // ---------------------------------------------------------- the rate bound

  // What one limit has let through since s0: T in all, u of it still charged to
  // the present slice.
  ghost predicate Within(hz: nat, limit: nat, s: Slice, u: nat, T: int, s0: int) {
    && hz * (T - u) <= limit * (s.start - s0)
    && hz * T <= limit * (s.end - s0)
  }

  // The token-bucket bound at time t.
  ghost predicate Bounded(c: Clock, limit: nat, T: int, s0: int, t: int) {
    c.hz * T <= limit * (t - s0 + c.slice)
  }

  function Bytes(bios: seq<TBio>): nat {
    if bios == [] then 0 else Bytes(bios[..|bios| - 1]) + bios[|bios| - 1].size
  }

  // Both limits, for the bios sent since the first k.
  ghost predicate InRate(c: Clock, r: Rate, s: Slice, k: nat, s0: int) {
    && k <= |s.sent|
    && Within(c.hz, r.bps, s, s.bytes, Bytes(s.sent) - Bytes(s.sent[..k]), s0)
    && Within(c.hz, r.iops, s, s.ios, |s.sent| - k, s0)
  }

  ghost predicate RateBound(c: Clock, r: Rate, s: Slice, k: nat, s0: int, t: int) {
    && k <= |s.sent|
    && Bounded(c, r.bps, Bytes(s.sent) - Bytes(s.sent[..k]), s0, t)
    && Bounded(c, r.iops, |s.sent| - k, s0, t)
  }

  // The account of a direction since s0: of the present slice, or of none yet
  // because the last one ran out before s0 and nothing was sent since.
  ghost predicate Held(c: Clock, r: Rate, s: Slice, k: nat, s0: int) {
    InRate(c, r, s, k, s0) || (s.end < s0 && k == |s.sent|)
  }

  // A slice that just started has nothing behind it.
  lemma FreshInRate(c: Clock, r: Rate, s: Slice, s0: int, now: int)
    requires ClockOk(c) && s0 <= now
    ensures InRate(c, r, Fresh(c, s, now), |s.sent|, s0)
  {
    assert s.sent[..|s.sent|] == s.sent;
    MulLe(r.bps, 0, now - s0);
    MulLe(r.iops, 0, now - s0);
    MulLe(r.bps, 0, now + c.slice - s0);
    MulLe(r.iops, 0, now + c.slice - s0);
  }

  // At any time, what is sent from now on is on the account of the present slice
  // from its start.
  lemma StartInRate(c: Clock, r: Rate, s: Slice)
    requires s.start <= s.end
    ensures InRate(c, r, s, |s.sent|, s.start)
  {
    assert s.sent[..|s.sent|] == s.sent;
    MulLe(c.hz, 0 - s.bytes as int, 0);
    MulLe(c.hz, 0 - s.ios as int, 0);
    MulLe(r.bps, 0, s.end - s.start);
    MulLe(r.iops, 0, s.end - s.start);
  }

  // A slice that ran out is replaced before anything is decided.
  lemma UsedIsFresh(c: Clock, r: Rate, s: Slice, size: nat, now: int)
    requires ClockOk(c) && RateOk(r) && !NoRule(r) && Used(s, now)
    ensures MayDispatch(c, r, s, size, now) == MayDispatch(c, r, Fresh(c, s, now), size, now)
  {
  }

  // Finding the current slice forgets nothing that must be remembered.
  lemma CurrentWithin(c: Clock, limit: nat, s: Slice, u: nat, T: int, s0: int, now: int)
    requires ClockOk(c) && s.start <= now && Within(c.hz, limit, s, u, T, s0)
    ensures var t := Current(c, s, now);
            Within(c.hz, limit, t, if Used(s, now) then 0 else u, T, s0)
            && t.end >= now + c.slice && t.start <= now <= t.end
  {
    RoundUpBounds(now + c.slice, c.slice);
    var t := Current(c, s, now);
    MulLe(limit, s.end - s0, t.end - s0);
    if Used(s, now) { MulLe(limit, s.end - s0, now - s0); }
  }

  // Sending n more units the check allowed.
  lemma SentWithin(c: Clock, limit: nat, s: Slice, u: nat, n: nat, T: int, s0: int, now: int)
    requires ClockOk(c) && Within(c.hz, limit, s, u, T, s0) && s.start <= now
    requires u + n <= limit * Granted(c, s, now) / c.hz
    ensures Bounded(c, limit, T + n, s0, now)
  {
    var g := Granted(c, s, now);
    GrantedBounds(c, s, now);
    FloorBound(limit, g, c.hz, u + n);
    MulLe(limit, g, now - s.start + c.slice);
    Distribute(limit, s.start - s0, now - s.start + c.slice);
    assert c.hz * (T + n) == c.hz * (T - u) + c.hz * (u + n);
  }

  lemma Distribute(k: int, a: int, b: int)
    ensures k * (a + b) == k * a + k * b
  {
  }

  // Trimming what whole slices have earned.
  lemma TrimWithin(c: Clock, limit: nat, s: Slice, t: Slice, u: nat, T: int, s0: int, n: nat)
    requires ClockOk(c) && c.hz * (T - u) <= limit * (s.start - s0)
    requires t.start == s.start + n * c.slice && c.hz * T <= limit * (t.end - s0)
    ensures var trim := Earned(c, limit, n);
            Within(c.hz, limit, t, if u >= trim then u - trim else 0, T, s0)
  {
    var trim := limit * c.slice * n / c.hz;
    assert c.hz * trim <= limit * c.slice * n;
    assert limit * c.slice * n == limit * (n * c.slice);
    Distribute(limit, s.start - s0, n * c.slice);
    if u >= trim {
      assert c.hz * (T - (u - trim)) == c.hz * (T - u) + c.hz * trim;
    } else {
      MulLe(c.hz, u, trim);
      assert c.hz * T == c.hz * (T - u) + c.hz * u;
    }
  }

  // tg_may_dispatch, asked with or without sending, keeps the account.
  lemma AskKeeps(c: Clock, r: Rate, s: Slice, size: nat, now: int, k: nat, s0: int)
    requires ClockOk(c) && RateOk(r) && !NoRule(r) && s.start <= now && InRate(c, r, s, k, s0)
    ensures var t := MayDispatch(c, r, s, size, now).slice;
            InRate(c, r, t, k, s0) && t.start <= now <= t.end && now + c.slice <= t.end && t.sent == s.sent
  {
    var v := MayDispatch(c, r, s, size, now);
    var t := Current(c, s, now);
    var T := Bytes(s.sent) - Bytes(s.sent[..k]);
    CurrentWithin(c, r.bps, s, s.bytes, T, s0, now);
    CurrentWithin(c, r.iops, s, s.ios, |s.sent| - k, s0, now);
    RoundUpBounds(now + v.wait, c.slice);
    MulLe(r.bps, t.end - s0, v.slice.end - s0);
    MulLe(r.iops, t.end - s0, v.slice.end - s0);
  }

  lemma SentMore(sent: seq<TBio>, b: TBio, k: nat)
    requires k <= |sent|
    ensures Bytes(sent + [b]) == Bytes(sent) + b.size && (sent + [b])[..k] == sent[..k]
  {
    assert (sent + [b])[..|sent|] == sent;
  }

  // What trimming does to the times.
  lemma TrimTimes(c: Clock, r: Rate, s: Slice, now: int)
    requires ClockOk(c) && s.start <= now <= s.end
    ensures var t := Trim(c, r, s, now);
            t.start <= now <= t.end && now + c.slice <= t.end && t.sent == s.sent
  {
    RoundUpBounds(now + c.slice, c.slice);
    var n := (now - s.start) / c.slice;
    assert n * c.slice <= now - s.start;
  }

  // ... and to the amounts: each is trimmed by what n whole slices earn.
  lemma TrimAmounts(c: Clock, r: Rate, s: Slice, now: int) returns (n: nat)
    requires ClockOk(c) && s.start <= now <= s.end
    ensures var t := Trim(c, r, s, now);
            var bytesTrim, ioTrim := Earned(c, r.bps, n), Earned(c, r.iops, n);
            && t.start == s.start + n * c.slice
            && t.bytes == (if s.bytes >= bytesTrim then s.bytes - bytesTrim else 0)
            && t.ios == (if s.ios >= ioTrim then s.ios - ioTrim else 0)
  {
    n := (now - s.start) / c.slice;
    if n == 0 || (Earned(c, r.bps, n) == 0 && Earned(c, r.iops, n) == 0) { n := 0; }
    assert Earned(c, r.bps, 0) == 0 && Earned(c, r.iops, 0) == 0;
    hide Earned, Extend;
  }

  lemma TrimKeeps(c: Clock, r: Rate, s: Slice, k: nat, s0: int, now: int)
    requires ClockOk(c) && s.start <= now <= s.end && k <= |s.sent|
    requires var T := Bytes(s.sent) - Bytes(s.sent[..k]);
             && c.hz * (T - s.bytes) <= r.bps * (s.start - s0)
             && c.hz * (|s.sent| - k - s.ios) <= r.iops * (s.start - s0)
    requires RateBound(c, r, s, k, s0, now)
    ensures var t := Trim(c, r, s, now);
            InRate(c, r, t, k, s0) && RateBound(c, r, t, k, s0, now)
  {
    TrimTimes(c, r, s, now);
    var n := TrimAmounts(c, r, s, now);
    hide Trim;
    var t := Trim(c, r, s, now);
    var T := Bytes(s.sent) - Bytes(s.sent[..k]);
    MulLe(r.bps, now - s0 + c.slice, t.end - s0);
    MulLe(r.iops, now - s0 + c.slice, t.end - s0);
    TrimWithin(c, r.bps, s, t, s.bytes, T, s0, n);
    TrimWithin(c, r.iops, s, t, s.ios, |s.sent| - k, s0, n);
  }

  // The bio passed both checks, against the slice it is charged to.
  lemma OkMeansAllowed(c: Clock, r: Rate, s: Slice, size: nat, now: int)
    requires ClockOk(c) && RateOk(r) && !NoRule(r) && s.start <= now && MayDispatch(c, r, s, size, now).ok
    ensures var t := MayDispatch(c, r, s, size, now).slice;
            && t.bytes + size <= r.bps * Granted(c, t, now) / c.hz
            && t.ios + 1 <= r.iops * Granted(c, t, now) / c.hz
  {
    GrantedBounds(c, Current(c, s, now), now);
  }

  // Charging an allowed bio.
  lemma ChargeKeeps(c: Clock, r: Rate, t: Slice, b: TBio, now: int, k: nat, s0: int)
    requires ClockOk(c) && t.start <= now <= t.end && InRate(c, r, t, k, s0)
    requires t.bytes + b.size <= r.bps * Granted(c, t, now) / c.hz
    requires t.ios + 1 <= r.iops * Granted(c, t, now) / c.hz
    ensures var u := Sent(c, r, t, b, now);
            InRate(c, r, u, k, s0) && RateBound(c, r, u, k, s0, now) && u.start <= now <= u.end
            && u.sent == t.sent + [b]
  {
    var T := Bytes(t.sent) - Bytes(t.sent[..k]);
    SentWithin(c, r.bps, t, t.bytes, b.size, T, s0, now);
    SentWithin(c, r.iops, t, t.ios, 1, |t.sent| - k, s0, now);
    hide Granted, Trim;
    SentMore(t.sent, b, k);
    var s := Charge(t, b);
    TrimTimes(c, r, s, now);
    assert T + b.size - s.bytes == T - t.bytes;
    TrimKeeps(c, r, s, k, s0, now);
  }

  // A bio that passed the check is sent within the bound.
  lemma SendKeeps(c: Clock, r: Rate, s: Slice, b: TBio, now: int, k: nat, s0: int)
    requires ClockOk(c) && RateOk(r) && !NoRule(r) && s.start <= now && InRate(c, r, s, k, s0)
    requires MayDispatch(c, r, s, b.size, now).ok
    ensures var t := Sent(c, r, MayDispatch(c, r, s, b.size, now).slice, b, now);
            InRate(c, r, t, k, s0) && RateBound(c, r, t, k, s0, now) && t.start <= now <= t.end
            && t.sent == s.sent + [b]
  {
    OkMeansAllowed(c, r, s, b.size, now);
    AskKeeps(c, r, s, b.size, now, k, s0);
    hide MayDispatch, Granted, InRate, RateBound, Sent;
    ChargeKeeps(c, r, MayDispatch(c, r, s, b.size, now).slice, b, now, k, s0);
  }
}
