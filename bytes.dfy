/** Machine-level value types shared by every component of the firmware. */
module Bytes {

  /** An 8-bit unsigned C variable (`uint8_t`, `unsigned char`). */
  type u8 = x: int | 0 <= x < 256

  /** A 16-bit unsigned C variable (`uint16_t`). */
  type u16 = x: int | 0 <= x < 65536

  datatype Option<+T> = None | Some(value: T)

  /** Post-increment of a `uint8_t`: wraps from 255 to 0. */
  function Inc8(x: u8): (r: u8)
    ensures x < 255 ==> r == x + 1
    ensures x == 255 ==> r == 0
  {
    (x + 1) % 256
  }

  /** Post-increment of a `uint16_t`: wraps from 65535 to 0. */
  function Inc16(x: u16): (r: u16)
    ensures x < 65535 ==> r == x + 1
    ensures x == 65535 ==> r == 0
  {
    (x + 1) % 65536
  }

  /** A bounded buffer after offering the items of s one at a time: those that still fit
      below the capacity are appended in order, the rest are dropped, and the items already
      held are untouched. */
  function Fill<T>(q: seq<T>, s: seq<T>, cap: nat): (r: seq<T>)
    requires |q| <= cap
    ensures |r| == if |q| + |s| <= cap then |q| + |s| else cap
    ensures r == (q + s)[..|r|]
    ensures r[..|q|] == q
  {
    if |q| + |s| <= cap then q + s else q + s[..cap - |q|]
  }

  /** Offering a sequence and then one more item is offering the longer sequence. */
  lemma {:induction false} FillSnoc<T>(q: seq<T>, s: seq<T>, c: T, cap: nat)
    requires |q| <= cap
    ensures Fill(Fill(q, s, cap), [c], cap) == Fill(q, s + [c], cap)
  {
    var r := Fill(q, s, cap);
    if |q| + |s| < cap {
      assert r == q + s;
      assert r + [c] == q + (s + [c]);
    } else {
      assert |r| == cap;
      var n := cap - |q|;
      assert (s + [c])[..n] == s[..n];
    }
  }

  /** Offering two sequences in turn is offering their concatenation. */
  lemma {:induction false} FillConcat<T>(q: seq<T>, s: seq<T>, t: seq<T>, cap: nat)
    requires |q| <= cap
    ensures Fill(Fill(q, s, cap), t, cap) == Fill(q, s + t, cap)
    decreases |t|
  {
    if t == [] {
      assert s + t == s;
    } else {
      var init := t[..|t| - 1];
      var c := t[|t| - 1];
      assert t == init + [c];
      FillConcat(q, s, init, cap);
      FillSnoc(Fill(q, s, cap), init, c, cap);
      FillSnoc(q, s + init, c, cap);
      assert s + init + [c] == s + t;
    }
  }
}
