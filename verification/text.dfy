/** Decimal text, separators and the interface names the plugin builds from numbers. */
module Text {

  datatype Option<+T> = None | Some(value: T)

  // ----- decimal digits -----

  predicate IsDigit(c: char) {
    '0' <= c <= '9'
  }

  predicate AllDigits(s: string) {
    forall i | 0 <= i < |s| :: IsDigit(s[i])
  }

  function DigitChar(d: nat): (c: char)
    requires d < 10
    ensures IsDigit(c) && c as int - '0' as int == d
  {
    ('0' as int + d) as char
  }

  /** Decimal print of a number, as %d writes it. */
  function Itoa(n: nat): (s: string)
    ensures |s| > 0 && AllDigits(s)
  {
    if n < 10 then [DigitChar(n)] else Itoa(n / 10) + [DigitChar(n % 10)]
  }

  /** The number a digit string stands for. */
  function DigitValue(s: string): nat
    requires AllDigits(s)
  {
    if s == "" then 0 else DigitValue(s[..|s| - 1]) * 10 + (s[|s| - 1] as int - '0' as int)
  }

  const MAX_INT: int := 0x7fff_ffff_ffff_ffff

  /** strconv.Atoi: an optional sign, at least one digit, and a value that fits a 64-bit int. */
  function Atoi(s: string): Option<int> {
    var neg := |s| > 0 && s[0] == '-';
    var body := if |s| > 0 && (s[0] == '-' || s[0] == '+') then s[1..] else s;
    if body == "" || !AllDigits(body) then None
    else
      var m: int := DigitValue(body);
      var v := if neg then -m else m;
      if -MAX_INT - 1 <= v <= MAX_INT then Some(v) else None
  }

  /** A sign that strconv.Atoi allows. */
  predicate IsSign(sign: string) {
    sign in ["", "+", "-"]
  }

  /** The text is a sign and at least one digit, and stands for v, which fits 64 bits. */
  predicate StandsFor(s: string, sign: string, digits: string, v: int) {
    && s == sign + digits && IsSign(sign) && digits != "" && AllDigits(digits)
    && v == (if sign == "-" then -(DigitValue(digits) as int) else DigitValue(digits) as int)
    && -9223372036854775808 <= v <= 9223372036854775807
  }

  /** What parses as an int, and as which. */
  lemma AtoiExact(s: string, v: int)
    ensures Atoi(s) == Some(v) <==> exists sign, digits :: StandsFor(s, sign, digits, v)
  {
    if Atoi(s) == Some(v) {
      ParsedIsSigned(s, v);
    }
    if sign, digits :| StandsFor(s, sign, digits, v) {
      SignedIsParsed(s, sign, digits, v);
    }
  }

  lemma ParsedIsSigned(s: string, v: int)
    requires Atoi(s) == Some(v)
    ensures exists sign, digits :: StandsFor(s, sign, digits, v)
  {
    if s[0] == '-' || s[0] == '+' {
      assert s == s[..1] + s[1..] && s[..1] == [s[0]];
      assert StandsFor(s, s[..1], s[1..], v);
    } else {
      assert s == "" + s;
      assert StandsFor(s, "", s, v);
    }
  }

  lemma SignedIsParsed(s: string, sign: string, digits: string, v: int)
    requires StandsFor(s, sign, digits, v)
    ensures Atoi(s) == Some(v)
  {
    if sign == "" {
      assert s == digits && IsDigit(s[0]);
    } else {
      assert s[0] == sign[0] && s[1..] == digits;
    }
  }

  lemma {:induction false} DigitValueOfItoa(n: nat)
    ensures DigitValue(Itoa(n)) == n
  {
    if n >= 10 {
      DigitValueOfItoa(n / 10);
      assert Itoa(n)[..|Itoa(n)| - 1] == Itoa(n / 10);
    } else {
      assert Itoa(n)[..0] == "";
    }
  }

  lemma ItoaInjective(m: nat, n: nat)
    requires Itoa(m) == Itoa(n)
    ensures m == n
  {
    DigitValueOfItoa(m);
    DigitValueOfItoa(n);
  }

  /** No number but 0 is printed with a leading 0. */
  lemma {:induction false} NoLeadingZero(n: nat)
    ensures n > 0 ==> Itoa(n)[0] != '0'
  {
    if n >= 10 {
      NoLeadingZero(n / 10);
    }
  }

  /** Parsing undoes printing exactly for the numbers a 64-bit int can hold. */
  lemma AtoiOfItoa(n: nat)
    ensures Atoi(Itoa(n)) == if n <= 9223372036854775807 then Some(n) else None
  {
    DigitValueOfItoa(n);
    assert IsDigit(Itoa(n)[0]);
  }

  // ----- interface names -----

  /** The name the i-th interface gets inside the pod. */
  function Eth(i: nat): string {
    "eth" + Itoa(i)
  }

  /** The name a released link gets on its way back to the initial namespace. */
  function Dev(i: nat): string {
    "dev" + Itoa(i)
  }

  /** The temporary name of a link that is called eth0 in the initial namespace. */
  function Sriov(i: nat): string {
    "sriov" + Itoa(i)
  }

  /** The filter of DEL: the prefix eth followed by text that parses as an int. */
  predicate IsEthName(name: string) {
    |name| >= 3 && name[..3] == "eth" && Atoi(name[3..]).Some?
  }

  /** DEL's filter accepts the name of every interface that a 64-bit index can count, and of no other. */
  lemma EthIsEthName(i: nat)
    ensures IsEthName(Eth(i)) <==> i <= 9223372036854775807
  {
    AtoiOfItoa(i);
    assert Eth(i)[3..] == Itoa(i);
  }

  /** The filter, spelled out: eth, a sign or none, and digits that fit an int. */
  lemma EthNameExact(name: string)
    ensures IsEthName(name) <==>
            exists sign, digits, v: int :: |name| >= 3 && name[..3] == "eth" && StandsFor(name[3..], sign, digits, v)
  {
    if IsEthName(name) {
      AtoiExact(name[3..], Atoi(name[3..]).value);
    }
    if sign, digits, v: int :| |name| >= 3 && name[..3] == "eth" && StandsFor(name[3..], sign, digits, v) {
      AtoiExact(name[3..], v);
    }
  }

  lemma Printed()
    ensures Itoa(0) == "0" && Itoa(1) == "1" && Itoa(12) == "12" && Itoa(305) == "305" && Itoa(9998) == "9998"
  {
    assert Itoa(30) == Itoa(3) + "0" && Itoa(305) == Itoa(30) + "5";
    assert Itoa(99) == Itoa(9) + "9" && Itoa(999) == Itoa(99) + "9" && Itoa(9998) == Itoa(999) + "8";
  }

  /** The names and the file name of some interfaces. */
  lemma NamesSpelled()
    ensures Eth(0) == "eth0" && Eth(12) == "eth12" && Dev(305) == "dev305" && Sriov(9998) == "sriov9998"
    ensures Key("4f2a", Eth(1)) == "4f2a-eth1"
  {
    Printed();
    hide Itoa;
  }

  lemma EthInjective(i: nat, j: nat)
    requires Eth(i) == Eth(j)
    ensures i == j
  {
    assert Eth(i)[3..] == Itoa(i) && Eth(j)[3..] == Itoa(j);
    ItoaInjective(i, j);
  }

  lemma DevInjective(i: nat, j: nat)
    requires Dev(i) == Dev(j)
    ensures i == j
  {
    assert Dev(i)[3..] == Itoa(i) && Dev(j)[3..] == Itoa(j);
    ItoaInjective(i, j);
  }

  /** No name is of two kinds: what DEL looks for, what it leaves behind, and the temporary name. */
  lemma NameKindsDisjoint(i: nat, name: string)
    ensures Dev(i)[0] == 'd' && Sriov(i)[0] == 's'
    ensures IsEthName(name) ==> name[0] == 'e' && name != Dev(i) && name != Sriov(i)
    ensures Eth(i)[0] == 'e'
  {
    if IsEthName(name) {
      assert name[0] == name[..3][0];
    }
  }

  // ----- scratch file names -----

  /** The scratch file of one interface of one container. */
  function Key(cid: string, ifname: string): string {
    cid + "-" + ifname
  }

  /** Beyond the prefix a name of DEL's kind holds digits, except possibly a sign right after it. */
  lemma EthNameShape(name: string, j: nat)
    requires IsEthName(name) && j < |name|
    ensures j >= 4 ==> IsDigit(name[j])
    ensures name[j] == '-' ==> j == 3
  {
    var s := name[3..];
    if j >= 4 {
      var body := if s[0] == '-' || s[0] == '+' then s[1..] else s;
      assert AllDigits(body);
      assert name[j] == s[j - 3];
      assert s[1..][j - 4] == s[j - 3];
    } else if j < 3 {
      assert name[j] == name[..3][j];
    }
  }

  /** Two scratch files coincide only for the same container and interface, even when ids hold dashes. */
  lemma KeyInjective(c1: string, n1: string, c2: string, n2: string)
    requires IsEthName(n1) && IsEthName(n2)
    requires Key(c1, n1) == Key(c2, n2)
    ensures c1 == c2 && n1 == n2
  {
    if |n1| < |n2| {
      KeySuffix(c1, n1, c2, n2);
    } else if |n2| < |n1| {
      KeySuffix(c2, n2, c1, n1);
    } else {
      var k := Key(c1, n1);
      assert n1 == k[|k| - |n1|..] && n2 == k[|k| - |n2|..];
      assert c1 == k[..|k| - |n1| - 1] && c2 == k[..|k| - |n2| - 1];
    }
  }

  /** A shorter interface name cannot end the key of a longer one: its dash would sit inside the longer name. */
  lemma KeySuffix(c1: string, n1: string, c2: string, n2: string)
    requires IsEthName(n1) && IsEthName(n2) && |n1| < |n2|
    ensures Key(c1, n1) != Key(c2, n2)
  {
    if Key(c1, n1) == Key(c2, n2) {
      var k := Key(c1, n1);
      var d := |n2| - |n1| - 1;
      assert k[|c1|] == '-' && |c1| == |c2| + 1 + d;
      assert k[|c1|] == n2[d];
      EthNameShape(n2, d);
      assert k[|c1| + 1] == n1[0] == n1[..3][0] == 'e';
      assert k[|c1| + 1] == n2[d + 1];
      EthNameShape(n2, d + 1);
    }
  }

  // ----- split and join -----

  /** strings.Split by one character. */
  function Split(s: string, sep: char): (parts: seq<string>)
    ensures |parts| >= 1
  {
    if s == "" then [""]
    else
      var rest := Split(s[1..], sep);
      if s[0] == sep then [""] + rest else [[s[0]] + rest[0]] + rest[1..]
  }

  /** strings.Join by one character. */
  function Join(parts: seq<string>, sep: char): string {
    if parts == [] then ""
    else if |parts| == 1 then parts[0]
    else parts[0] + [sep] + Join(parts[1..], sep)
  }

  predicate Free(s: string, sep: char) {
    sep !in s
  }

  /** Joining undoes splitting for every string, and no part of a split holds the separator. */
  lemma {:induction false} SplitParts(s: string, sep: char)
    ensures forall i | 0 <= i < |Split(s, sep)| :: Free(Split(s, sep)[i], sep)
    ensures Join(Split(s, sep), sep) == s
  {
    if s != "" {
      var rest := Split(s[1..], sep);
      SplitParts(s[1..], sep);
      if s[0] == sep {
        assert Split(s, sep) == [""] + rest;
        assert ([""] + rest)[1..] == rest;
        assert Join([""] + rest, sep) == "" + [sep] + s[1..];
      } else {
        var head := [s[0]] + rest[0];
        var parts := [head] + rest[1..];
        assert Split(s, sep) == parts;
        assert parts[1..] == rest[1..];
        if |rest| == 1 {
          assert Join(parts, sep) == head;
        } else {
          assert Join(rest, sep) == rest[0] + [sep] + Join(rest[1..], sep);
        }
      }
    }
  }

  /** A separator-free head is one part, whatever follows the separator. */
  lemma {:induction false} SplitHead(head: string, tail: string, sep: char)
    requires Free(head, sep)
    ensures Split(head, sep) == [head]
    ensures Split(head + [sep] + tail, sep) == [head] + Split(tail, sep)
  {
    var s := head + [sep] + tail;
    if head == "" {
      assert s[1..] == tail;
    } else {
      SplitHead(head[1..], tail, sep);
      assert s[1..] == head[1..] + [sep] + tail;
      assert [head[0]] + head[1..] == head;
    }
  }

  /** Splitting undoes joining when no part holds the separator. */
  lemma {:induction false} SplitOfJoin(parts: seq<string>, sep: char)
    requires |parts| > 0
    requires forall i | 0 <= i < |parts| :: Free(parts[i], sep)
    ensures Split(Join(parts, sep), sep) == parts
  {
    if |parts| == 1 {
      SplitHead(parts[0], "", sep);
    } else {
      SplitOfJoin(parts[1..], sep);
      SplitHead(parts[0], Join(parts[1..], sep), sep);
    }
  }
}
