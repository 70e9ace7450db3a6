/**
  Run identifiers: the text `generation/decimal` that the daemon prints, the
  strict parsers of the Go and JavaScript workers, and the lenient parser the
  daemon applies to an acknowledged reference.
 */
module RunIds {
  import opened Common

  datatype RunId = RunId(generation: string, sequence: nat)

  const UINT64_LIMIT: nat := 0x1_0000_0000_0000_0000
  const SAFE_INTEGER: nat := 0x1F_FFFF_FFFF_FFFF

  predicate IsDigit(c: char) { '0' <= c <= '9' }

  function DigitChar(d: nat): char
    requires d < 10
  {
    '0' + d as char
  }

  function Digit(c: char): nat
    requires IsDigit(c)
  {
    c as int - '0' as int
  }

  predicate Digits(t: string) { forall i :: 0 <= i < |t| ==> IsDigit(t[i]) }

  /** The decimal text of a number, as strconv.FormatUint prints it. */
  function Decimal(n: nat): (t: string)
    ensures |t| > 0 && Digits(t)
  {
    if n < 10 then [DigitChar(n)] else Decimal(n / 10) + [DigitChar(n % 10)]
  }

  /** The number a digit string denotes. */
  function Value(t: string): nat
    requires Digits(t)
  {
    if t == "" then 0 else Value(t[..|t| - 1]) * 10 + Digit(t[|t| - 1])
  }

  /** strconv.ParseUint(t, 10, 64): digits only, at least one, below 2^64. */
  function ParseUint(t: string): Option<nat> {
    if t == "" || !Digits(t) || Value(t) >= UINT64_LIMIT then None else Some(Value(t))
  }

  /** The index of the first slash, or the length when there is none. */
  function FirstSlash(t: string): (i: nat)
    ensures i <= |t|
    ensures forall k :: 0 <= k < i ==> t[k] != '/'
    ensures i < |t| ==> t[i] == '/'
  {
    if t == "" || t[0] == '/' then 0 else 1 + FirstSlash(t[1..])
  }

  predicate IsGeneration(g: string) { g != "" && '/' !in g }

  /** The text of a reserved run. */
  function Text(id: RunId): string { id.generation + "/" + Decimal(id.sequence) }

  /** The Go worker's parser: only canonical decimals of positive sequences. */
  function WorkerParse(t: string): Option<RunId> {
    var i := FirstSlash(t);
    if i == |t| || i == 0 then None else
    var tail := t[i + 1..];
    match ParseUint(tail)
    case None => None
    case Some(n) => if n > 0 && Decimal(n) == tail then Some(RunId(t[..i], n)) else None
  }

  /** The daemon's parser of an acknowledged reference: any uint64 digits. */
  function DaemonParse(t: string): Option<RunId> {
    var i := FirstSlash(t);
    if i == |t| then None else
    match ParseUint(t[i + 1..])
    case None => None
    case Some(n) => Some(RunId(t[..i], n))
  }

  /** The JavaScript worker's parser: one slash, no leading zero, safe integer. */
  function JsParse(t: string): Option<RunId> {
    var i := FirstSlash(t);
    if i == |t| || i == 0 then None else
    var tail := t[i + 1..];
    if tail == "" || !Digits(tail) || tail[0] == '0' || Value(tail) > SAFE_INTEGER then None
    else Some(RunId(t[..i], Value(tail)))
  }

  lemma {:induction false} ValueOfDecimal(n: nat)
    ensures Value(Decimal(n)) == n
    ensures n > 0 ==> Decimal(n)[0] != '0'
  {
    if n >= 10 {
      ValueOfDecimal(n / 10);
      assert Decimal(n)[..|Decimal(n)| - 1] == Decimal(n / 10);
    }
  }

  lemma {:induction false} DecimalOfValue(t: string)
    requires t != "" && Digits(t) && t[0] != '0'
    ensures Value(t) > 0 && Decimal(Value(t)) == t
  {
    var init := t[..|t| - 1];
    if init != "" {
      DecimalOfValue(init);
      assert Value(t) / 10 == Value(init) && Value(t) % 10 == Digit(t[|t| - 1]);
      assert t == init + [t[|t| - 1]];
    } else {
      assert t == [t[0]];
    }
  }

  lemma {:induction false} FirstSlashOf(g: string, tail: string)
    requires '/' !in g
    ensures FirstSlash(g + "/" + tail) == |g|
  {
    var t := g + "/" + tail;
    assert t[|g|] == '/';
    assert forall k :: 0 <= k < |g| ==> t[k] == g[k];
  }

  /** Printing then parsing returns the same run, for every run the daemon can reserve. */
  lemma RoundTrip(id: RunId)
    requires IsGeneration(id.generation) && 0 < id.sequence < UINT64_LIMIT
    ensures WorkerParse(Text(id)) == Some(id)
  {
    FirstSlashOf(id.generation, Decimal(id.sequence));
    ValueOfDecimal(id.sequence);
    assert Text(id)[|id.generation| + 1..] == Decimal(id.sequence);
    assert Text(id)[..|id.generation|] == id.generation;
  }

  /** A text the worker accepts is the printed text of exactly the run it denotes. */
  lemma Canonical(t: string)
    ensures WorkerParse(t).Some? <==>
            exists id: RunId :: IsGeneration(id.generation) && 0 < id.sequence < UINT64_LIMIT && t == Text(id)
    ensures WorkerParse(t).Some? ==> t == Text(WorkerParse(t).value)
  {
    if WorkerParse(t).Some? {
      var id := WorkerParse(t).value;
      var i := FirstSlash(t);
      assert t == t[..i] + "/" + t[i + 1..];
      assert IsGeneration(id.generation) && 0 < id.sequence < UINT64_LIMIT && t == Text(id);
    }
    forall id: RunId | IsGeneration(id.generation) && 0 < id.sequence < UINT64_LIMIT && t == Text(id)
      ensures WorkerParse(t).Some?
    {
      RoundTrip(id);
    }
  }

  /** Two runs with the same text are the same run. */
  lemma TextInjective(a: RunId, b: RunId)
    requires '/' !in a.generation && '/' !in b.generation
    requires Text(a) == Text(b)
    ensures a == b
  {
    FirstSlashOf(a.generation, Decimal(a.sequence));
    FirstSlashOf(b.generation, Decimal(b.sequence));
    assert Text(a)[..|a.generation|] == a.generation && Text(b)[..|b.generation|] == b.generation;
    assert Text(a)[|a.generation| + 1..] == Decimal(a.sequence);
    assert Text(b)[|b.generation| + 1..] == Decimal(b.sequence);
    ValueOfDecimal(a.sequence);
    ValueOfDecimal(b.sequence);
  }

  /** The JavaScript parser is the Go parser cut off at the largest safe integer. */
  lemma JsAgreesWithGo(t: string)
    ensures JsParse(t) ==
            match WorkerParse(t) {
              case None => None
              case Some(id) => if id.sequence <= SAFE_INTEGER then Some(id) else None
            }
  {
    var i := FirstSlash(t);
    if i != |t| && i != 0 {
      var tail := t[i + 1..];
      if tail != "" && Digits(tail) {
        if tail[0] != '0' {
          DecimalOfValue(tail);
        } else if Value(tail) > 0 {
          ValueOfDecimal(Value(tail));
        }
      }
    }
  }

  /** How the two sides read one run reference. */
  datatype RunText = Exact(id: RunId) | Padded(id: RunId) | Malformed

  /** The class of a reference text: read by both sides, by the daemon only, or by neither. */
  function Classify(t: string): RunText {
    match WorkerParse(t)
    case Some(id) => Exact(id)
    case None =>
      match DaemonParse(t)
      case Some(id) => Padded(id)
      case None => Malformed
  }

  /** The classification decides both parsers. */
  lemma ClassifyDecidesBoth(t: string)
    ensures WorkerParse(t) == if Classify(t).Exact? then Some(Classify(t).id) else None
    ensures DaemonParse(t) == if Classify(t).Malformed? then None else Some(Classify(t).id)
    ensures Classify(t).Exact? ==> Classify(t).id.sequence > 0 && IsGeneration(Classify(t).id.generation)
  {
  }

  /**
    The two sides read a reference alike exactly when it has no number at all,
    or a generation in front of it and no leading zero in it. The texts only the
    daemon reads are those with an empty generation or a zero in front.
   */
  lemma ReadersAgree(t: string)
    ensures var i := FirstSlash(t);
      WorkerParse(t) == DaemonParse(t) <==> (i == |t| || ParseUint(t[i + 1..]).None? || (i != 0 && t[i + 1] != '0'))
    ensures WorkerParse(t) != DaemonParse(t) ==> WorkerParse(t).None? && DaemonParse(t).Some?
  {
    hide Decimal, Value;
    var i := FirstSlash(t);
    if i != |t| && ParseUint(t[i + 1..]).Some? {
      CanonicalNumber(t[i + 1..]);
      assert t[i + 1..][0] == t[i + 1];
    }
  }

  lemma CanonicalNumber(tail: string)
    requires ParseUint(tail).Some?
    ensures ParseUint(tail).value > 0 && Decimal(ParseUint(tail).value) == tail <==> tail[0] != '0'
  {
    if tail[0] != '0' {
      DecimalOfValue(tail);
    } else if Value(tail) > 0 {
      ValueOfDecimal(Value(tail));
    }
  }

  /** One text of each kind that only the daemon reads: a padded number, sequence zero, an empty generation. */
  lemma ReadersDisagree()
    ensures forall t :: t in {"g/01", "g/0", "/5"} ==> WorkerParse(t).None? && DaemonParse(t).Some?
  {
    assert "01"[..1] == "0" && Value("0") == 0 && Value("01") == 1 && Value("5") == 5;
    OnlyDaemonReads("g", "01");
    OnlyDaemonReads("g", "0");
    OnlyDaemonReads("", "5");
    assert "g" + "/" + "01" == "g/01" && "g" + "/" + "0" == "g/0" && "" + "/" + "5" == "/5";
  }

  lemma OnlyDaemonReads(g: string, tail: string)
    requires '/' !in g && ParseUint(tail).Some? && (g == "" || tail[0] == '0')
    ensures WorkerParse(g + "/" + tail).None? && DaemonParse(g + "/" + tail).Some?
  {
    var t := g + "/" + tail;
    FirstSlashOf(g, tail);
    assert t[|g| + 1..] == tail && t[|g| + 1] == tail[0];
    ReadersAgree(t);
  }
}
