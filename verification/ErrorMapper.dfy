/**
 Mapping of driver errors to application errors. Every database call a value passes through maps
 it once more, so what matters is how repeated mapping behaves.
 */
module ErrorMapper {
  import opened Wrappers

  /** The errors that flow through the database layer. `Driver` is any error with a code or number. */
  datatype Error =
    | Driver(code: Option<string>, errorNum: Option<nat>)
    | ConflictError(conflictCode: string, sourceKey: string, tag: Option<string>)
    | ConnectionError(sourceKey: string, cause: Error)
    | ExecutionError(sourceKey: string, tag: Option<string>, cause: Error, errorCode: Option<string>)
    | UnauthorizedError(sourceKey: string)
    | UnknownSourceKey(sourceKey: string)
    | RollbackWithResult(failure: nat)
    | Other(id: nat)

  const CONNECTION_CODES := {
    "NJS-040", "NJS-076", "NJS-500", "NJS-501", "NJS-503", "NJS-510", "NJS-521", "DPI-1010", "DPI-1080",
    "ORA-03113", "ORA-03114", "ORA-03135", "ORA-12170", "ORA-12514", "ORA-12541", "ORA-12543", "ORA-12545"
  }

  const UNIQUE_VIOLATION := "ORA-00001"

  function Digits(n: nat): (s: string)
    ensures s != []
  {
    var digit := "0123456789"[n % 10];
    if n < 10 then [digit] else Digits(n / 10) + [digit]
  }

  /** The number that decimal digits stand for. */
  function NumberOf(s: string): int
    decreases |s|
  {
    if s == [] then 0 else 10 * NumberOf(s[..|s| - 1]) + (s[|s| - 1] as int - '0' as int)
  }

  function PadStart(s: string, width: nat): string
    decreases width - |s|
  {
    if |s| >= width then s else PadStart("0" + s, width)
  }

  /** The code an error carries for the mapper: its own, or one made from its number. */
  function CodeOf(error: Error): Option<string> {
    match error
    case Driver(Some(code), _) => Some(code)
    case Driver(None, Some(num)) => if num == 0 then None else Some("ORA-" + PadStart(Digits(num), 5))
    case ExecutionError(_, _, _, code) => code
    case _ => None
  }

  /** An execution error has a `code` member of its own, so it looks like a driver error again. */
  predicate LooksLikeDriverError(error: Error) {
    error.Driver? || error.ExecutionError?
  }

  function MapError(error: Error, sourceKey: string, tag: Option<string>): Error {
    if !LooksLikeDriverError(error) then error
    else match CodeOf(error)
         case None => error
         case Some(code) =>
           if code == "" then error
           else if code == UNIQUE_VIOLATION then ConflictError(code, sourceKey, tag)
           else if code in CONNECTION_CODES then ConnectionError(sourceKey, error)
           else ExecutionError(sourceKey, tag, error, Some(code))
  }

  /** One mapping layer: the source and tag of a call the error passes through. */
  datatype Layer = Layer(sourceKey: string, tag: Option<string>)

  /** The error after all `layers`, innermost first. */
  function MapThrough(error: Error, layers: seq<Layer>): Error
    decreases |layers|
  {
    if layers == [] then error
    else MapThrough(MapError(error, layers[0].sourceKey, layers[0].tag), layers[1..])
  }

  lemma {:induction false} OneMoreLayer(error: Error, layers: seq<Layer>, last: Layer)
    ensures MapThrough(error, layers + [last]) == MapError(MapThrough(error, layers), last.sourceKey, last.tag)
    decreases |layers|
  {
    if layers == [] {
      assert layers + [last] == [last] && [last][1..] == [];
    } else {
      assert (layers + [last])[1..] == layers[1..] + [last];
      OneMoreLayer(MapError(error, layers[0].sourceKey, layers[0].tag), layers[1..], last);
    }
  }

  datatype Class = Conflict | Connection | Execution | Unmapped

  function ClassOf(error: Error): Class {
    match error
    case ConflictError(_, _, _) => Conflict
    case ConnectionError(_, _) => Connection
    case ExecutionError(_, _, _, _) => Execution
    case _ => Unmapped
  }

  /** The code a mapped error still shows: its own, or that of the driver error it wraps. */
  function ShownCode(error: Error): Option<string> {
    match error
    case ConflictError(code, _, _) => Some(code)
    case ConnectionError(_, cause) => CodeOf(cause)
    case _ => CodeOf(error)
  }

  /** The driver error at the bottom, where wrapping keeps it, and how many wrappers are around it. */
  function Root(error: Error): Error {
    match error
    case ConnectionError(_, cause) => Root(cause)
    case ExecutionError(_, _, cause, _) => Root(cause)
    case _ => error
  }

  function Wrappings(error: Error): nat {
    match error
    case ConnectionError(_, cause) => 1 + Wrappings(cause)
    case ExecutionError(_, _, cause, _) => 1 + Wrappings(cause)
    case _ => 0
  }

  /** A mapped error: execution errors carry a code that maps to an execution error again. */
  predicate Settled(error: Error) {
    || !LooksLikeDriverError(error)
    || (&& error.ExecutionError?
        && error.errorCode.Some?
        && error.errorCode.value != ""
        && error.errorCode.value != UNIQUE_VIOLATION
        && error.errorCode.value !in CONNECTION_CODES)
  }

  lemma {:induction false} SettledStaysInClass(error: Error, layers: seq<Layer>)
    requires Settled(error)
    ensures var e := MapThrough(error, layers);
            && ClassOf(e) == ClassOf(error) && ShownCode(e) == ShownCode(error)
            && Root(e) == Root(error)
            && Wrappings(e) == Wrappings(error) + (if error.ExecutionError? then |layers| else 0)
    decreases |layers|
  {
    if layers == [] {
    } else {
      SettledStaysInClass(MapError(error, layers[0].sourceKey, layers[0].tag), layers[1..]);
    }
  }

  /**
   However many layers map a driver error, it keeps the class and the code of its first mapping,
   whether the error came with a code or only with a number. Conflict and connection errors come
   through later layers as they are; an execution error is wrapped once more by each, with the
   driver error still at the bottom.
   */
  lemma FirstMappingDecides(error: Error, code: string, layers: seq<Layer>)
    requires error.Driver? && CodeOf(error) == Some(code) && code != "" && layers != []
    ensures var first := MapError(error, layers[0].sourceKey, layers[0].tag);
            var last := MapThrough(error, layers);
            && ClassOf(last) == ClassOf(first) != Unmapped
            && (ClassOf(last) == Conflict <==> code == UNIQUE_VIOLATION)
            && (ClassOf(last) == Connection <==> code in CONNECTION_CODES)
            && ShownCode(last) == ShownCode(first) == Some(code)
            && (ClassOf(last) == Execution ==> Root(last) == error && Wrappings(last) == |layers|)
            && (ClassOf(last) == Conflict ==> last == ConflictError(code, layers[0].sourceKey, layers[0].tag))
            && (ClassOf(last) == Connection ==> last == ConnectionError(layers[0].sourceKey, error))
            && (ClassOf(last) != Execution ==> last == first)
  {
    FirstMapping(error, code, layers[0]);
    var first := MapError(error, layers[0].sourceKey, layers[0].tag);
    SettledStaysInClass(first, layers[1..]);
    if ClassOf(first) != Execution {
      UnlikeDriverStays(first, layers[1..]);
    }
  }

  /** The class of a driver error's first mapping, by its code. */
  lemma FirstMapping(error: Error, code: string, layer: Layer)
    requires error.Driver? && CodeOf(error) == Some(code) && code != ""
    ensures var first := MapError(error, layer.sourceKey, layer.tag);
            && Settled(first) && ClassOf(first) != Unmapped
            && (ClassOf(first) == Conflict <==> code == UNIQUE_VIOLATION)
            && (ClassOf(first) == Connection <==> code in CONNECTION_CODES)
            && ShownCode(first) == Some(code)
            && (ClassOf(first) == Execution <==> first.ExecutionError?)
            && (ClassOf(first) != Execution ==> !LooksLikeDriverError(first))
            && (ClassOf(first) == Execution ==> Root(first) == error && Wrappings(first) == 1)
            && first == match ClassOf(first)
                        case Conflict => ConflictError(code, layer.sourceKey, layer.tag)
                        case Connection => ConnectionError(layer.sourceKey, error)
                        case _ => ExecutionError(layer.sourceKey, layer.tag, error, Some(code))
  {
    assert UNIQUE_VIOLATION !in CONNECTION_CODES;
  }

  predicate IsDecimal(s: string) {
    forall i :: 0 <= i < |s| ==> '0' <= s[i] <= '9'
  }

  /** The digits written are decimal and read back as the number. */
  lemma {:induction false} DigitsReadBack(n: nat)
    ensures IsDecimal(Digits(n)) && NumberOf(Digits(n)) == n
    ensures n < 10 ==> |Digits(n)| == 1
    decreases n
  {
    var digit := "0123456789"[n % 10];
    assert digit as int - '0' as int == n % 10 && '0' <= digit <= '9';
    if n < 10 {
      assert Digits(n) == [digit] && [digit][..0] == [];
    } else {
      DigitsReadBack(n / 10);
      assert Digits(n)[..|Digits(n)| - 1] == Digits(n / 10);
    }
  }

  /** Fewer than a power of ten means no more digits than its exponent. */
  lemma {:induction false} DigitsAreFew(n: nat, width: nat, limit: nat)
    requires width >= 1 && n < limit && limit == PowerOfTen(width)
    ensures |Digits(n)| <= width
    decreases width
  {
    if n < 10 {
      DigitsReadBack(n);
    } else {
      assert limit == 10 * PowerOfTen(width - 1) && width > 1;
      DigitsAreFew(n / 10, width - 1, PowerOfTen(width - 1));
    }
  }

  function PowerOfTen(n: nat): nat {
    if n == 0 then 1 else 10 * PowerOfTen(n - 1)
  }

  lemma {:induction false} LeadingZero(s: string)
    ensures NumberOf("0" + s) == NumberOf(s)
    decreases |s|
  {
    if s == [] {
      assert "0" + s == "0" && "0"[..0] == [];
    } else {
      assert ("0" + s)[..|s|] == "0" + s[..|s| - 1];
      LeadingZero(s[..|s| - 1]);
    }
  }

  lemma {:induction false} PaddingKeepsNumber(s: string, width: nat)
    requires IsDecimal(s)
    ensures IsDecimal(PadStart(s, width)) && NumberOf(PadStart(s, width)) == NumberOf(s)
    ensures |PadStart(s, width)| == if |s| < width then width else |s|
    decreases width - |s|
  {
    if |s| >= width {
    } else {
      LeadingZero(s);
      PaddingKeepsNumber("0" + s, width);
    }
  }

  /** A driver error that only has a number is mapped by the code `ORA-` and that number in five digits. */
  lemma NumberedCode(num: nat)
    requires 0 < num < 100_000
    ensures var code := CodeOf(Driver(None, Some(num)));
            && code.Some? && |code.value| == 9 && code.value[..4] == "ORA-"
            && IsDecimal(code.value[4..]) && NumberOf(code.value[4..]) == num
  {
    DigitsReadBack(num);
    assert PowerOfTen(5) == 100_000 by {
      assert PowerOfTen(2) == 100 && PowerOfTen(4) == 10 * (10 * PowerOfTen(2));
    }
    DigitsAreFew(num, 5, 100_000);
    PaddingKeepsNumber(Digits(num), 5);
    var padded := PadStart(Digits(num), 5);
    assert ("ORA-" + padded)[..4] == "ORA-" && ("ORA-" + padded)[4..] == padded;
  }

  /** Five digits are determined by their number. */
  lemma SameNumberSameDigits(a: string, b: string)
    requires |a| == |b| && IsDecimal(a) && IsDecimal(b) && NumberOf(a) == NumberOf(b)
    ensures a == b
    decreases |a|
  {
    if a == [] {
    } else {
      var n := |a| - 1;
      SameNumberSameDigits(a[..n], b[..n]);
      assert a == a[..n] + [a[n]] && b == b[..n] + [b[n]];
    }
  }

  lemma ReadsAs(digits: string, num: nat)
    requires |digits| == 5 && IsDecimal(digits) && NumberOf(digits) == num && 0 < num < 100_000
    ensures CodeOf(Driver(None, Some(num))) == Some("ORA-" + digits)
  {
    NumberedCode(num);
    var code := CodeOf(Driver(None, Some(num))).value;
    SameNumberSameDigits(code[4..], digits);
    assert code == code[..4] + code[4..];
  }

  lemma FiveDigits(a: char, b: char, c: char, d: char, e: char)
    ensures NumberOf([a, b, c, d, e]) ==
            10000 * (a as int - 48) + 1000 * (b as int - 48) + 100 * (c as int - 48) + 10 * (d as int - 48)
            + (e as int - 48)
  {
    assert [a, b, c, d, e][..4] == [a, b, c, d] && [a, b, c, d][..3] == [a, b, c] && [a, b, c][..2] == [a, b];
    assert [a, b][..1] == [a] && [a][..0] == [];
    assert NumberOf([a]) == a as int - 48;
    assert NumberOf([a, b]) == 10 * NumberOf([a]) + (b as int - 48);
    assert NumberOf([a, b, c]) == 10 * NumberOf([a, b]) + (c as int - 48);
    assert NumberOf([a, b, c, d]) == 10 * NumberOf([a, b, c]) + (d as int - 48);
  }

  /** The unique violation and a refused listener are recognised by their numbers alone. */
  lemma NumbersAreRecognised(sourceKey: string, tag: Option<string>)
    ensures MapError(Driver(None, Some(1)), sourceKey, tag) == ConflictError(UNIQUE_VIOLATION, sourceKey, tag)
    ensures MapError(Driver(None, Some(12541)), sourceKey, tag) ==
            ConnectionError(sourceKey, Driver(None, Some(12541)))
  {
    FiveDigits('0', '0', '0', '0', '1');
    ReadsAs("00001", 1);
    assert "ORA-" + "00001" == UNIQUE_VIOLATION;
    FiveDigits('1', '2', '5', '4', '1');
    ReadsAs("12541", 12541);
    assert "ORA-" + "12541" == "ORA-12541" && "ORA-12541" in CONNECTION_CODES && "ORA-12541" != UNIQUE_VIOLATION;
  }

  lemma {:induction false} UnlikeDriverStays(error: Error, layers: seq<Layer>)
    requires !LooksLikeDriverError(error)
    ensures MapThrough(error, layers) == error
    decreases |layers|
  {
    if layers == [] {
    } else {
      UnlikeDriverStays(error, layers[1..]);
    }
  }

  /** Mapping a mapped error again changes nothing, if and only if it is not an execution error. */
  lemma RemappingIsIdentityIff(error: Error, sourceKey: string, tag: Option<string>, outer: string,
                               outerTag: Option<string>)
    ensures var once := MapError(error, sourceKey, tag);
            MapError(once, outer, outerTag) == once <==>
            (!once.ExecutionError? || once.errorCode.GetOr("") == "")
  {
    var once := MapError(error, sourceKey, tag);
    if once.ExecutionError? && once.errorCode.GetOr("") != "" {
      var twice := MapError(once, outer, outerTag);
      assert twice == once ==> Wrappings(twice) == Wrappings(once);
    }
  }

  /** It happens: a missing table's error is wrapped by the first layer and wrapped again by the second. */
  lemma ExecutionErrorIsWrappedAgain(sourceKey: string, tag: Option<string>)
    ensures var once := MapError(Driver(Some("ORA-00942"), None), sourceKey, tag);
            var twice := MapError(once, sourceKey, tag);
            twice == ExecutionError(sourceKey, tag, once, Some("ORA-00942")) && twice != once
  {
    var once := MapError(Driver(Some("ORA-00942"), None), sourceKey, tag);
    assert "ORA-00942" != UNIQUE_VIOLATION && "ORA-00942" !in CONNECTION_CODES;
    assert Wrappings(MapError(once, sourceKey, tag)) == Wrappings(once) + 1;
  }
}
