/**
  Speaker identities: the printer used when a lease is issued and the parser used by the webhooks.

  The parser follows the regular expression of the source: `\d` matches every decimal digit of
  the character set (so the digit table is a parameter, fixed only on ASCII), and `$` also
  matches before one trailing newline.
*/
module Identity {
  import opened Common

  datatype Speaker = Speaker(channel: nat, epoch: nat, generation: nat, nonce: string)

  /** The value of a decimal digit of any script. */
  type Digits = char -> Option<nat>

  /** ASCII digits have their value and the separators are not digits. */
  ghost predicate AsciiDigits(dv: Digits) {
    && (forall c: char | '0' <= c <= '9' :: dv(c) == Some(c as int - '0' as int))
    && dv('-') == None
  }

  predicate IsAlnum(c: char) {
    '0' <= c <= '9' || 'A' <= c <= 'Z' || 'a' <= c <= 'z'
  }

  predicate AllAlnum(s: string) {
    forall i | 0 <= i < |s| :: IsAlnum(s[i])
  }

  // ---- printing ----

  function Decimal(n: nat): string {
    if n < 10 then ['0' + n as char] else Decimal(n / 10) + ['0' + (n % 10) as char]
  }

  /** Zero-padded to two digits; longer numbers are not cut. */
  function TwoDigits(n: nat): string {
    if n < 10 then "0" + Decimal(n) else Decimal(n)
  }

  const HEAD: string := "speaker-ch-"

  function Print(s: Speaker): string {
    HEAD + TwoDigits(s.channel) + "-e" + Decimal(s.epoch)
    + "-g" + Decimal(s.generation) + "-n" + s.nonce
  }

  // ---- parsing ----

  /** Strips a literal prefix. */
  function Literal(s: string, p: string): (r: Option<string>)
    ensures r.Some? <==> p <= s
    ensures r.Some? ==> s == p + r.value
  {
    if p <= s then Some(s[|p|..]) else None
  }

  /** Length of the longest run of digits at the start of `s`. */
  function DigitRun(dv: Digits, s: string): (n: nat)
    ensures n <= |s|
    ensures forall i | 0 <= i < n :: dv(s[i]).Some?
    ensures n < |s| ==> dv(s[n]) == None
  {
    if s == [] || dv(s[0]).None? then 0 else 1 + DigitRun(dv, s[1..])
  }

  function Value(dv: Digits, s: string): nat {
    if s == [] then 0
    else 10 * Value(dv, s[..|s| - 1]) + dv(s[|s| - 1]).GetOr(0)
  }

  /** `\d+` followed by the literal `p`: the number and the rest. */
  function Number(dv: Digits, s: string, p: string): Option<(nat, string)> {
    var n := DigitRun(dv, s);
    if n == 0 then None
    else match Literal(s[n..], p)
         case Some(rest) => Some((Value(dv, s[..n]), rest))
         case None => None
  }

  /** `[A-Za-z0-9]+$`, where `$` also matches before a final newline. */
  function Nonce(s: string): Option<string> {
    var body := if s != [] && s[|s| - 1] == '\n' then s[..|s| - 1] else s;
    if body != [] && AllAlnum(body) then Some(body) else None
  }

  /** The fields after the channel number. */
  datatype Rest = Rest(epoch: nat, generation: nat, nonce: string)

  function ParseRest(dv: Digits, s: string): Option<Rest> {
    match Number(dv, s, "-g")
    case None => None
    case Some((epoch, s')) =>
      match Number(dv, s', "-n")
      case None => None
      case Some((generation, s'')) =>
        match Nonce(s'')
        case None => None
        case Some(nonce) => Some(Rest(epoch, generation, nonce))
  }

  /** `\d{2}-e` and the fields after it. */
  function ParseChannel(dv: Digits, s: string): Option<Speaker> {
    if |s| < 2 || dv(s[0]).None? || dv(s[1]).None? then None
    else match Literal(s[2..], "-e")
         case None => None
         case Some(s') =>
           match ParseRest(dv, s')
           case None => None
           case Some(r) => Some(Speaker(Value(dv, s[..2]), r.epoch, r.generation, r.nonce))
  }

  function Parse(dv: Digits, s: string): Option<Speaker> {
    match Literal(s, HEAD)
    case None => None
    case Some(s') => ParseChannel(dv, s')
  }

  // ---- decimal numbers ----

  lemma {:induction false} DecimalReads(dv: Digits, n: nat)
    requires AsciiDigits(dv)
    ensures Decimal(n) != []
    ensures forall i | 0 <= i < |Decimal(n)| :: '0' <= Decimal(n)[i] <= '9'
    ensures Value(dv, Decimal(n)) == n
  {
    if n < 10 {
      assert Decimal(n)[..0] == [];
    } else {
      DecimalReads(dv, n / 10);
      var d := Decimal(n);
      assert d[..|d| - 1] == Decimal(n / 10);
    }
  }

  lemma {:induction false} DecimalLength(n: nat)
    ensures |Decimal(n)| == 1 <==> n < 10
    ensures |Decimal(n)| <= 2 <==> n < 100
  {
    if n >= 10 {
      DecimalLength(n / 10);
    }
  }

  lemma {:induction false} DigitRunOf(dv: Digits, ds: string, rest: string)
    requires forall i | 0 <= i < |ds| :: dv(ds[i]).Some?
    requires rest == [] || dv(rest[0]).None?
    ensures DigitRun(dv, ds + rest) == |ds|
  {
    if ds == [] {
      assert ds + rest == rest;
    } else {
      assert (ds + rest)[1..] == ds[1..] + rest;
      DigitRunOf(dv, ds[1..], rest);
    }
  }

  lemma NumberReads(dv: Digits, n: nat, p: string, rest: string)
    requires AsciiDigits(dv) && p != [] && p[0] == '-'
    ensures Number(dv, Decimal(n) + p + rest, p) == Some((n, rest))
  {
    DecimalReads(dv, n);
    var ds := Decimal(n);
    DigitRunOf(dv, ds, p + rest);
    assert ds + p + rest == ds + (p + rest);
    assert (ds + (p + rest))[|ds|..] == p + rest;
    assert (ds + (p + rest))[..|ds|] == ds;
    assert (p + rest)[|p|..] == rest;
  }

  // ---- round trip ----

  /** What follows `-e` in a printed identity. */
  function PrintRest(s: Speaker): string {
    Decimal(s.epoch) + "-g" + (Decimal(s.generation) + "-n" + s.nonce)
  }

  lemma PrintSplits(s: Speaker)
    ensures Literal(Print(s), HEAD) == Some(TwoDigits(s.channel) + "-e" + PrintRest(s))
  {
    assert Print(s) == HEAD + (TwoDigits(s.channel) + "-e" + PrintRest(s));
  }

  lemma RestReads(dv: Digits, s: Speaker)
    requires AsciiDigits(dv)
    ensures ParseRest(dv, PrintRest(s))
         == match Nonce(s.nonce) case None => None case Some(n) => Some(Rest(s.epoch, s.generation, n))
  {
    NumberReads(dv, s.epoch, "-g", Decimal(s.generation) + "-n" + s.nonce);
    NumberReads(dv, s.generation, "-n", s.nonce);
  }

  lemma ChannelReads(dv: Digits, n: nat, rest: string)
    requires AsciiDigits(dv)
    ensures ParseChannel(dv, TwoDigits(n) + "-e" + rest)
         == if n >= 100 then None
            else match ParseRest(dv, rest)
                 case None => None
                 case Some(r) => Some(Speaker(n, r.epoch, r.generation, r.nonce))
  {
    var cs := TwoDigits(n);
    var s := cs + "-e" + rest;
    DecimalReads(dv, n);
    DecimalLength(n);
    if n < 100 {
      TwoDigitValue(dv, n);
      assert s[..2] == cs && s[2..] == "-e" + rest;
    } else {
      assert cs == Decimal(n) && s[2..][0] == cs[2] != '-';
    }
  }

  /** Parsing a printed identity, for any fields at all. */
  lemma ParsePrinted(dv: Digits, s: Speaker)
    requires AsciiDigits(dv)
    ensures Parse(dv, Print(s))
         == if s.channel >= 100 then None
            else match Nonce(s.nonce) case None => None case Some(n) => Some(s.(nonce := n))
  {
    PrintSplits(s);
    RestReads(dv, s);
    ChannelReads(dv, s.channel, PrintRest(s));
  }

  /** The written form, by an example. */
  lemma PrintExample()
    ensures Print(Speaker(7, 12, 3, "Ab9")) == "speaker-ch-07-e12-g3-nAb9"
  {
    assert Decimal(12) == "12" && Decimal(3) == "3" && TwoDigits(7) == "07";
  }

  lemma NonceUnchanged(s: string)
    ensures Nonce(s) == Some(s) <==> s != [] && AllAlnum(s)
  {
    if s != [] && AllAlnum(s) {
      assert s[|s| - 1] != '\n';
    }
  }

  /**
    Parsing a printed identity gives back its four fields exactly when the channel number has
    two digits and the nonce is a non-empty ASCII alphanumeric string.
   */
  lemma RoundTrip(dv: Digits, s: Speaker)
    requires AsciiDigits(dv)
    ensures Parse(dv, Print(s)) == Some(s) <==> s.channel < 100 && s.nonce != [] && AllAlnum(s.nonce)
  {
    ParsePrinted(dv, s);
    NonceUnchanged(s.nonce);
  }

  lemma TwoDigitValue(dv: Digits, n: nat)
    requires AsciiDigits(dv) && n < 100
    ensures |TwoDigits(n)| == 2 && Value(dv, TwoDigits(n)) == n
    ensures dv(TwoDigits(n)[0]).Some? && dv(TwoDigits(n)[1]).Some?
  {
    DecimalReads(dv, n);
    DecimalLength(n);
    if n < 10 {
      var t := TwoDigits(n);
      assert t[..1] == ['0'] && t[..1][..0] == [];
    }
  }

  /** Comparing identities as strings is the same as comparing all four fields. */
  lemma PrintInjective(dv: Digits, a: Speaker, b: Speaker)
    requires AsciiDigits(dv)
    requires a.channel < 100 && a.nonce != [] && AllAlnum(a.nonce)
    requires b.channel < 100 && b.nonce != [] && AllAlnum(b.nonce)
    ensures Print(a) == Print(b) <==> a == b
  {
    RoundTrip(dv, a);
    RoundTrip(dv, b);
  }

  /** The parser is not injective: a final newline is accepted and ignored. */
  lemma NewlineAccepted(dv: Digits, s: Speaker)
    requires AsciiDigits(dv)
    requires s.channel < 100 && s.nonce != [] && AllAlnum(s.nonce)
    ensures Parse(dv, Print(s.(nonce := s.nonce + ['\n']))) == Some(s)
  {
    var t := s.(nonce := s.nonce + ['\n']);
    ParsePrinted(dv, t);
    assert t.nonce[..|t.nonce| - 1] == s.nonce;
  }

  lemma NonceShape(s: string) returns (end: string)
    requires Nonce(s).Some?
    ensures s == Nonce(s).value + end && (end == [] || end == ['\n'])
    ensures Nonce(s).value != [] && AllAlnum(Nonce(s).value)
  {
    end := if s[|s| - 1] == '\n' then ['\n'] else [];
    assert s == (if s[|s| - 1] == '\n' then s[..|s| - 1] else s) + end;
  }

  lemma NumberShape(dv: Digits, s: string, p: string) returns (ds: string)
    requires Number(dv, s, p).Some?
    ensures var (n, rest) := Number(dv, s, p).value;
            ds != [] && n == Value(dv, ds) && s == ds + (p + rest)
  {
    ds := s[..DigitRun(dv, s)];
  }

  lemma RestShape(dv: Digits, s: string) returns (es: string, gs: string, end: string)
    requires ParseRest(dv, s).Some?
    ensures var r := ParseRest(dv, s).value;
            && s == es + ("-g" + (gs + ("-n" + (r.nonce + end))))
            && (end == [] || end == ['\n'])
            && es != [] && gs != [] && r.nonce != [] && AllAlnum(r.nonce)
            && r.epoch == Value(dv, es) && r.generation == Value(dv, gs)
  {
    es := NumberShape(dv, s, "-g");
    var s' := Number(dv, s, "-g").value.1;
    gs := NumberShape(dv, s', "-n");
    end := NonceShape(Number(dv, s', "-n").value.1);
  }

  /** Whatever parses has the written shape, with the fields read off the string itself. */
  lemma ParsedShape(dv: Digits, s: string)
    returns (cs: string, es: string, gs: string, end: string)
    requires Parse(dv, s).Some?
    ensures var p := Parse(dv, s).value;
            && s == HEAD + (cs + ("-e" + (es + ("-g" + (gs + ("-n" + (p.nonce + end)))))))
            && (end == [] || end == ['\n'])
            && |cs| == 2 && es != [] && gs != [] && p.nonce != [] && AllAlnum(p.nonce)
            && p.channel == Value(dv, cs) && p.epoch == Value(dv, es) && p.generation == Value(dv, gs)
  {
    var s1 := Literal(s, HEAD).value;
    var s2 := Literal(s1[2..], "-e").value;
    cs := s1[..2];
    es, gs, end := RestShape(dv, s2);
    assert s1 == cs + s1[2..];
  }

  // ---- writing and reading, as a pair ----

  datatype Naming = Naming(read: string -> Option<Speaker>, write: Speaker -> string)

  function Names(dv: Digits): Naming {
    Naming(s => Parse(dv, s), s => Print(s))
  }
}
