/** The order of MemberOrder is that of the members' texts, letter by letter. */
module MemberText {
  import opened TaskContracts
  import opened StoreState
  import opened MemberOrder

  /** Byte order: a text comes before those it begins, else the first letter in which
      they differ decides. */
  predicate Before(a: string, b: string) {
    b != [] && (a == [] || a[0] < b[0] || (a[0] == b[0] && Before(a[1..], b[1..])))
  }

  function Digit(d: nat): char
    requires d < 16
  {
    "0123456789abcdef"[d]
  }

  /** A number as k hexadecimal digits. */
  function Hex(n: nat, k: nat): string {
    if k == 0 then "" else Hex(n / 16, k - 1) + [Digit(n % 16)]
  }

  function Dec(n: nat): string {
    if n < 10 then [Digit(n)] else Dec(n / 10) + [Digit(n % 10)]
  }

  function Name(p: Pool): string {
    match p case SecurityPool => "security" case AgentPool => "agent" case EvaluationPool => "evaluation"
  }

  /** `pool|task-<32 hexadecimal digits>|generation`. */
  function Text(m: Member): string {
    Name(m.pool) + ("|task-" + (Hex(m.id, 32) + ("|" + Dec(m.generation))))
  }

  function Limit(k: nat): nat {
    if k == 0 then 1 else 16 * Limit(k - 1)
  }

  lemma {:induction false} SameStart(p: string, a: string, b: string)
    ensures Before(p + a, p + b) <==> Before(a, b)
  {
    if p == [] {
      assert p + a == a && p + b == b;
    } else {
      assert (p + a)[1..] == p[1..] + a && (p + b)[1..] == p[1..] + b;
      SameStart(p[1..], a, b);
    }
  }

  lemma {:induction false} NeverBoth(a: string, b: string)
    ensures !(Before(a, b) && Before(b, a))
  {
    if a != [] && b != [] { NeverBoth(a[1..], b[1..]); }
  }

  lemma DigitsAreOrdered(d: nat, e: nat)
    requires d < e < 16
    ensures Digit(d) < Digit(e)
  {
  }

  lemma {:induction false} HexLength(n: nat, k: nat)
    ensures |Hex(n, k)| == k
  {
    if k > 0 { HexLength(n / 16, k - 1); }
  }

  /** With one length, the smaller number comes first whatever follows. */
  lemma {:induction false} HexIsOrdered(x: nat, y: nat, k: nat, a: string, b: string)
    requires x < y < Limit(k)
    ensures Before(Hex(x, k) + a, Hex(y, k) + b)
  {
    if k > 0 {
      var dx, dy := [Digit(x % 16)], [Digit(y % 16)];
      assert Hex(x, k) + a == Hex(x / 16, k - 1) + (dx + a) && Hex(y, k) + b == Hex(y / 16, k - 1) + (dy + b);
      if x / 16 < y / 16 {
        HexIsOrdered(x / 16, y / 16, k - 1, dx + a, dy + b);
      } else {
        DigitsAreOrdered(x % 16, y % 16);
        SameStart(Hex(x / 16, k - 1), dx + a, dy + b);
      }
    }
  }

  predicate AllDigits(digits: seq<nat>) {
    forall i :: 0 <= i < |digits| ==> digits[i] < 10
  }

  function Letters(digits: seq<nat>): string
    requires AllDigits(digits)
  {
    seq(|digits|, i requires 0 <= i < |digits| => Digit(digits[i]))
  }

  lemma {:induction false} DecimalLetters(n: nat)
    ensures AllDigits(Decimal(n)) && Dec(n) == Letters(Decimal(n))
  {
    if n >= 10 {
      DecimalLetters(n / 10);
      assert Letters(Decimal(n)) == Letters(Decimal(n / 10)) + [Digit(n % 10)];
    }
  }

  lemma {:induction false} LettersAreOrdered(a: seq<nat>, b: seq<nat>)
    requires AllDigits(a) && AllDigits(b)
    ensures Before(Letters(a), Letters(b)) <==> TextLess(a, b)
  {
    if a != [] && b != [] {
      assert Letters(a)[1..] == Letters(a[1..]) && Letters(b)[1..] == Letters(b[1..]);
      if a[0] < b[0] {
        DigitsAreOrdered(a[0], b[0]);
      } else if b[0] < a[0] {
        DigitsAreOrdered(b[0], a[0]);
      } else {
        LettersAreOrdered(a[1..], b[1..]);
      }
    }
  }

  lemma NamesAreOrdered(p: Pool, q: Pool, a: string, b: string)
    requires p != q
    ensures Before(Name(p) + a, Name(q) + b) <==> PoolRank(p) < PoolRank(q)
  {
    assert (Name(p) + a)[0] == Name(p)[0] && (Name(q) + b)[0] == Name(q)[0];
  }

  /** Members are ordered exactly as their texts are, task ids being 32 hexadecimal
      digits. */
  lemma OrderedAsTexts(m: Member, n: Member)
    requires m.id < Limit(32) && n.id < Limit(32)
    ensures MemberLess(m, n) <==> Before(Text(m), Text(n))
  {
    hide MemberLess, Hex, Dec, Name, Before, Limit;
    var a, b := "|" + Dec(m.generation), "|" + Dec(n.generation);
    var c, d := Hex(m.id, 32) + a, Hex(n.id, 32) + b;
    if m.pool != n.pool {
      NamesAreOrdered(m.pool, n.pool, "|task-" + c, "|task-" + d);
    } else {
      SameStart(Name(m.pool), "|task-" + c, "|task-" + d);
      SameStart("|task-", c, d);
      if m.id < n.id {
        HexIsOrdered(m.id, n.id, 32, a, b);
      } else if n.id < m.id {
        HexIsOrdered(n.id, m.id, 32, b, a);
        NeverBoth(c, d);
      } else {
        SameStart(Hex(m.id, 32), a, b);
        SameStart("|", Dec(m.generation), Dec(n.generation));
        DecimalLetters(m.generation);
        DecimalLetters(n.generation);
        LettersAreOrdered(Decimal(m.generation), Decimal(n.generation));
      }
    }
    MemberLessMeans(m, n);
  }

  lemma MemberLessMeans(m: Member, n: Member)
    ensures m.pool != n.pool ==> (MemberLess(m, n) <==> PoolRank(m.pool) < PoolRank(n.pool))
    ensures m.pool == n.pool ==>
              (MemberLess(m, n) <==> m.id < n.id || (m.id == n.id && TextLess(Decimal(m.generation), Decimal(n.generation))))
  {
  }
}
