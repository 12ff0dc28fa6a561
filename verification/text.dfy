/** String normalisation and the composite string keys of the in-memory store. */
module Text {

  predicate IsSpace(c: char) {
    c == ' ' || c == '\t' || c == '\n' || c == '\r' || c == '\U{000B}' || c == '\U{000C}'
  }

  function TrimLeft(s: string): (r: string) {
    if s != [] && IsSpace(s[0]) then TrimLeft(s[1..]) else s
  }

  function TrimRight(s: string): (r: string) {
    if s != [] && IsSpace(s[|s| - 1]) then TrimRight(s[..|s| - 1]) else s
  }

  /** `strings.TrimSpace`, for ASCII white space. */
  function TrimSpace(s: string): (r: string) {
    TrimRight(TrimLeft(s))
  }

  /** Blank, tab, line feed, vertical tab, form feed and carriage return. */
  predicate White(c: char) {
    c == ' ' || 9 <= c as int <= 13
  }

  predicate Blank(s: string) {
    forall i :: 0 <= i < |s| ==> White(s[i])
  }

  lemma {:induction false} TrimLeftCuts(s: string)
    ensures var k := |s| - |TrimLeft(s)|; k >= 0 && Blank(s[..k]) && s[k..] == TrimLeft(s)
  {
    if s != [] && IsSpace(s[0]) {
      TrimLeftCuts(s[1..]);
      var k := |s| - |TrimLeft(s)|;
      assert s[..k] == [s[0]] + s[1..][..k - 1] && s[k..] == s[1..][k - 1..];
    }
  }

  lemma {:induction false} TrimRightCuts(s: string)
    ensures TrimRight(s) <= s && Blank(s[|TrimRight(s)|..])
  {
    if s != [] && IsSpace(s[|s| - 1]) {
      var rest := s[..|s| - 1];
      TrimRightCuts(rest);
      var k := |TrimRight(s)|;
      assert s[k..] == rest[k..] + [s[|s| - 1]];
    }
  }

  /** Trimming cuts white space off both ends, all of it and nothing else. */
  lemma TrimCuts(s: string)
    ensures exists a, b :: s == a + TrimSpace(s) + b && Blank(a) && Blank(b)
    ensures var r := TrimSpace(s); r != [] ==> !White(r[0]) && !White(r[|r| - 1])
  {
    TrimLeftCuts(s);
    var t, r := TrimLeft(s), TrimSpace(s);
    TrimRightCuts(t);
    hide TrimLeft, TrimRight, Blank;
    TrimTidies(s);
    var a, b := s[..|s| - |t|], t[|r|..];
    assert s == a + t && t == r + b;
    assert s == a + r + b && Blank(a) && Blank(b);
  }

  /** White space at neither end. */
  predicate Tidy(s: string) {
    s != [] ==> !IsSpace(s[0]) && !IsSpace(s[|s| - 1])
  }

  lemma {:induction false} TrimRightTidies(s: string)
    requires s != [] ==> !IsSpace(s[0])
    ensures Tidy(TrimRight(s)) && TrimRight(s) <= s
  {
    if s != [] && IsSpace(s[|s| - 1]) {
      TrimRightTidies(s[..|s| - 1]);
    }
  }

  lemma {:induction false} TrimLeftTidies(s: string)
    ensures var r := TrimLeft(s); r != [] ==> !IsSpace(r[0])
  {
    if s != [] && IsSpace(s[0]) {
      TrimLeftTidies(s[1..]);
    }
  }

  /** Trimming leaves nothing to trim. */
  lemma TrimTidies(s: string)
    ensures Tidy(TrimSpace(s)) && TrimSpace(TrimSpace(s)) == TrimSpace(s)
  {
    TrimLeftTidies(s);
    TrimRightTidies(TrimLeft(s));
  }

  function LowerChar(c: char): (r: char) {
    if 'A' <= c <= 'Z' then (c as int + 32) as char else c
  }

  /** `strings.ToLower`, for ASCII letters. */
  function ToLower(s: string): (r: string)
    ensures |r| == |s|
  {
    seq(|s|, i requires 0 <= i < |s| => LowerChar(s[i]))
  }

  /** Capital letters become small ones at the same place of the alphabet, and nothing else changes. */
  lemma LowerLetters(s: string, i: nat)
    requires i < |s|
    ensures var c := ToLower(s)[i];
            if 65 <= s[i] as int <= 90 then c as int == s[i] as int + 32 else c == s[i]
  {
  }

  function Digit(d: nat): (r: char)
    requires d < 10
  {
    ('0' as int + d) as char
  }

  /** `strconv.Itoa` on a non-negative number. */
  function Decimal(n: nat): (r: string)
    ensures r != []
    ensures forall i :: 0 <= i < |r| ==> '0' <= r[i] <= '9'
  {
    if n < 10 then [Digit(n)] else Decimal(n / 10) + [Digit(n % 10)]
  }

  /** The number a string of digits stands for. */
  function NumberOf(s: string): (r: int) {
    if s == [] then 0 else 10 * NumberOf(s[..|s| - 1]) + (s[|s| - 1] as int - '0' as int)
  }

  /** A number is printed in its digits, the highest first and without zeros in front. */
  lemma {:induction false} DecimalReads(n: nat)
    ensures NumberOf(Decimal(n)) == n && (Decimal(n)[0] == '0' ==> n == 0)
  {
    if n < 10 {
      assert Decimal(n) == [Digit(n)] && [Digit(n)][..0] == [];
    } else {
      DecimalReads(n / 10);
      var s := Decimal(n);
      assert s[..|s| - 1] == Decimal(n / 10) && s[|s| - 1] == Digit(n % 10);
    }
  }

  /** `strconv.FormatInt` in base ten. */
  function FormatInt(n: int): (r: string) {
    if n < 0 then "-" + Decimal(-n) else Decimal(n)
  }

  lemma {:induction false} DecimalInjective(m: nat, n: nat)
    requires Decimal(m) == Decimal(n)
    ensures m == n
  {
    var a, b := Decimal(m), Decimal(n);
    assert m % 10 == n % 10 by {
      assert a[|a| - 1] == Digit(m % 10);
      assert b[|b| - 1] == Digit(n % 10);
    }
    if m < 10 || n < 10 {
      assert |a| == 1 || |b| == 1;
    } else {
      assert a[..|a| - 1] == Decimal(m / 10);
      assert b[..|b| - 1] == Decimal(n / 10);
      DecimalInjective(m / 10, n / 10);
    }
  }

  /** The key of the deposit table: `wallet|txid|index`. */
  function DepositKeyString(wallet: string, txid: string, index: int): (r: string) {
    wallet + "|" + txid + "|" + FormatInt(index)
  }

  /** The key of the address index: `wallet|address`. */
  function AddressKeyString(wallet: string, address: string): (r: string) {
    wallet + "|" + address
  }

  lemma BarAt(a: string, b: string)
    ensures (a + "|" + b)[|a|] == '|'
    ensures '|' !in a ==> forall k :: 0 <= k < |a| ==> (a + "|" + b)[k] != '|'
    ensures '|' !in b ==> forall k :: |a| < k < |a| + 1 + |b| ==> (a + "|" + b)[k] != '|'
  {
  }

  lemma SplitAt(a: string, b: string, c: string, d: string)
    requires |a| == |c| && a + "|" + b == c + "|" + d
    ensures a == c && b == d
  {
    var x := a + "|" + b;
    assert a == x[..|a|] && c == (c + "|" + d)[..|a|];
    assert b == x[|a| + 1..] && d == (c + "|" + d)[|a| + 1..];
  }

  /** The text after the last bar determines where the last bar is. */
  lemma SplitAtLastBar(a: string, b: string, c: string, d: string)
    requires '|' !in b && '|' !in d
    requires a + "|" + b == c + "|" + d
    ensures a == c && b == d
  {
    BarAt(a, b);
    BarAt(c, d);
    assert |a + "|" + b| == |c + "|" + d|;
    SplitAt(a, b, c, d);
  }

  lemma FormatIntHasNoBar(n: int)
    ensures '|' !in FormatInt(n)
  {
  }

  lemma FormatIntInjective(m: int, n: int)
    requires FormatInt(m) == FormatInt(n)
    ensures m == n
  {
    assert (FormatInt(m)[0] == '-') == (m < 0);
    assert (FormatInt(n)[0] == '-') == (n < 0);
    if m < 0 {
      assert FormatInt(m)[1..] == Decimal(-m) && FormatInt(n)[1..] == Decimal(-n);
      DecimalInjective(-m, -n);
    } else {
      DecimalInjective(m, n);
    }
  }

  /** Within one wallet the keys of the deposit table are as good as tuples, and so are those of the address index. */
  lemma KeysOfOneWallet(w: string, t: string, i: int, t': string, i': int)
    ensures DepositKeyString(w, t, i) == DepositKeyString(w, t', i') <==> t == t' && i == i'
    ensures AddressKeyString(w, t) == AddressKeyString(w, t') <==> t == t'
  {
    if DepositKeyString(w, t, i) == DepositKeyString(w, t', i') {
      KeysSplit(w, t, i, w, t', i');
      SplitAt(w, t, w, t');
    }
    if AddressKeyString(w, t) == AddressKeyString(w, t') {
      SplitAt(w, t, w, t');
    }
  }

  /**
   The index comes last and holds no bar, so deposit keys are equal exactly when the
   index is and the rest of the text is.
  */
  lemma KeysSplit(w: string, t: string, i: int, w': string, t': string, i': int)
    ensures DepositKeyString(w, t, i) == DepositKeyString(w', t', i') <==>
            i == i' && AddressKeyString(w, t) == AddressKeyString(w', t')
  {
    if DepositKeyString(w, t, i) == DepositKeyString(w', t', i') {
      FormatIntHasNoBar(i);
      FormatIntHasNoBar(i');
      SplitAtLastBar(w + "|" + t, FormatInt(i), w' + "|" + t', FormatInt(i'));
      FormatIntInjective(i, i');
    }
  }

  /** One wallet id, continued by a bar, begins the other. */
  predicate Overlap(w: string, w': string) {
    w + "|" <= w' || w' + "|" <= w
  }

  ghost predicate AddressClash(w: string, w': string) {
    exists a, a' :: AddressKeyString(w, a) == AddressKeyString(w', a')
  }

  ghost predicate DepositClash(w: string, w': string) {
    exists t, i, t', i' :: DepositKeyString(w, t, i) == DepositKeyString(w', t', i')
  }

  lemma ClashOverlaps(w: string, a: string, w': string, a': string)
    requires |w| < |w'| && w + "|" + a == w' + "|" + a'
    ensures w + "|" <= w'
  {
    var x := w + "|" + a;
    assert (w + "|") == x[..|w| + 1] && w' == (w' + "|" + a')[..|w'|];
  }

  lemma OverlapClashes(w: string, w': string)
    requires w + "|" <= w'
    ensures AddressKeyString(w, w'[|w| + 1..] + "|") == AddressKeyString(w', "")
  {
    assert w' == w + "|" + w'[|w| + 1..];
  }

  /** Two wallets can share a key of the address index exactly when their ids overlap. */
  lemma AddressKeysClash(w: string, w': string)
    requires w != w'
    ensures AddressClash(w, w') <==> Overlap(w, w')
  {
    if AddressClash(w, w') {
      var a, a' :| AddressKeyString(w, a) == AddressKeyString(w', a');
      if |w| == |w'| {
        SplitAt(w, a, w', a');
      } else if |w| < |w'| {
        ClashOverlaps(w, a, w', a');
      } else {
        ClashOverlaps(w', a', w, a);
      }
    }
    if w + "|" <= w' {
      OverlapClashes(w, w');
    } else if w' + "|" <= w {
      OverlapClashes(w', w);
    }
  }

  /** The same for the deposit table. */
  lemma DepositKeysClash(w: string, w': string)
    requires w != w'
    ensures DepositClash(w, w') <==> Overlap(w, w')
  {
    AddressKeysClash(w, w');
    if DepositClash(w, w') {
      var t, i, t', i' :| DepositKeyString(w, t, i) == DepositKeyString(w', t', i');
      KeysSplit(w, t, i, w', t', i');
    }
    if AddressClash(w, w') {
      var a, a' :| AddressKeyString(w, a) == AddressKeyString(w', a');
      KeysSplit(w, a, 0, w', a', 0);
      assert DepositKeyString(w, a, 0) == DepositKeyString(w', a', 0);
    }
  }

  /**
   Wallet ids that do not overlap, as ids without a bar never do, make the deposit
   table's string keys as good as tuples.
  */
  lemma DepositKeyInjective(w: string, t: string, i: int, w': string, t': string, i': int)
    requires !Overlap(w, w')
    ensures DepositKeyString(w, t, i) == DepositKeyString(w', t', i') <==> w == w' && t == t' && i == i'
  {
    if w == w' {
      KeysOfOneWallet(w, t, i, t', i');
    } else {
      DepositKeysClash(w, w');
    }
  }

  /** The same for the address index. */
  lemma AddressKeyInjective(w: string, a: string, w': string, a': string)
    requires !Overlap(w, w')
    ensures AddressKeyString(w, a) == AddressKeyString(w', a') <==> w == w' && a == a'
  {
    if w == w' {
      KeysOfOneWallet(w, a, 0, a', 0);
    } else {
      AddressKeysClash(w, w');
    }
  }

  lemma NoBarNoOverlap(w: string, w': string)
    requires '|' !in w && '|' !in w'
    ensures !Overlap(w, w')
  {
    assert (w + "|")[|w|] == '|' && (w' + "|")[|w'|] == '|';
  }

  /** Without bars both kinds of key determine wallet, transaction or address, and index. */
  lemma PlainKeysInjective(w: string, t: string, i: int, w': string, t': string, i': int)
    requires '|' !in w && '|' !in w'
    ensures DepositKeyString(w, t, i) == DepositKeyString(w', t', i') <==> w == w' && t == t' && i == i'
    ensures AddressKeyString(w, t) == AddressKeyString(w', t') <==> w == w' && t == t'
  {
    NoBarNoOverlap(w, w');
    DepositKeyInjective(w, t, i, w', t', i');
    AddressKeyInjective(w, t, w', t');
  }

  /** Ids that overlap do make two different deposits share a key. */
  lemma DepositKeyClash()
    ensures Overlap("a|b", "a")
    ensures DepositKeyString("a|b", "c", 0) == DepositKeyString("a", "b|c", 0)
    ensures AddressKeyString("a|b", "c") == AddressKeyString("a", "b|c")
  {
    assert "a|b" + "|" + "c" == "a" + "|" + "b|c";
  }
}
