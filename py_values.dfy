/** The Python values the pipeline passes around: dictionary values, the
    exceptions it raises, mutable dictionaries, and the few built-ins whose
    behaviour matters (str() of a value, int() of a digit string, str.lower). */
module PyValues {

  /** An embedding: the numbers of a numpy array, in order. */
  type Vector = seq<real>

  /** A value stored under a key of an ad dictionary. Every JSON value other
      than an integer or a string is an `Other`, carrying its Python type name
      and the text Python's str() gives for it. `Vec` is a numpy array. */
  datatype Value =
    | Int(i: int)
    | Str(s: string)
    | Vec(v: Vector)
    | Other(typeName: string, text: string)
  {
    /** The name Python's type(value).__name__ gives. */
    function TypeName(): string
    {
      match this
      case Int(_) => "int"
      case Str(_) => "str"
      case Vec(_) => "ndarray"
      case Other(t, _) => t
    }
  }

  /** An ad as a dictionary from field name to value. */
  type Record = map<string, Value>

  /** Errors the vector store raises. */
  datatype StoreFault =
    | CollectionNotFound(name: string)
    | WrongVectorSize(expected: nat, got: nat)

  /** The exceptions the pipeline raises or lets through. */
  datatype PyException =
    | FileNotFoundError(message: string)
    | ValueError(message: string)
    | KeyError(arg: string)
    | AttributeError(typeName: string, attribute: string)
    | Exception(message: string)
    | QdrantError(fault: StoreFault)

  /** A Python dict that code holds by reference and updates in place. */
  class Dict {
    var entries: Record

    constructor (m: Record)
      ensures entries == m
    {
      entries := m;
    }
  }

  /** The contents of a list of dicts, element by element. */
  function Entries(ads: seq<Dict>): (ms: seq<Record>)
    reads ads
    ensures |ms| == |ads|
    ensures forall k :: 0 <= k < |ads| ==> ms[k] == ads[k].entries
  {
    seq(|ads|, k requires 0 <= k < |ads| reads ads => ads[k].entries)
  }

  predicate IsDigit(c: char)
  {
    '0' as int <= c as int <= '9' as int
  }

  /** Python's `s.isdigit()`, restricted to ASCII digits: true exactly for a
      non-empty string of digits. */
  predicate IsAsciiDigits(s: string)
  {
    |s| > 0 && forall k :: 0 <= k < |s| ==> IsDigit(s[k])
  }

  /** Python's int(s) for a string of ASCII digits (leading zeros allowed). */
  function ParseDigits(s: string): nat
    requires forall k :: 0 <= k < |s| ==> IsDigit(s[k])
    decreases |s|
  {
    if s == [] then 0
    else
      assert IsDigit(s[|s| - 1]);
      10 * ParseDigits(s[..|s| - 1]) + ((s[|s| - 1] as int) - ('0' as int))
  }

  function DigitChar(d: nat): (c: char)
    requires d < 10
    ensures IsDigit(c) && (c as int) - ('0' as int) == d
  {
    (('0' as int) + d) as char
  }

  /** Python's str(n) for a natural number: its decimal digits. */
  function ShowNat(n: nat): (s: string)
    ensures IsAsciiDigits(s)
    decreases n
  {
    if n < 10 then [DigitChar(n)] else ShowNat(n / 10) + [DigitChar(n % 10)]
  }

  /** Python's str(i) for an integer. */
  function ShowInt(i: int): string
  {
    if i < 0 then "-" + ShowNat(-i) else ShowNat(i)
  }

  /** int() undoes str() on natural numbers. */
  lemma {:induction false} ParseShowNat(n: nat)
    ensures ParseDigits(ShowNat(n)) == n
  {
    var s := ShowNat(n);
    if n >= 10 {
      ParseShowNat(n / 10);
      assert s[..|s| - 1] == ShowNat(n / 10);
    }
  }

  /** Python's str(value), as an f-string inserts it. */
  function PyStr(v: Value): string
  {
    match v
    case Int(i) => ShowInt(i)
    case Str(s) => s
    case Vec(_) => ""
    case Other(_, text) => text
  }

  /** Python's str(e) for a KeyError raised with argument `arg`: the argument
      in single quotes. */
  function KeyErrorText(arg: string): string
  {
    "'" + arg + "'"
  }

  function LowerChar(c: char): char
  {
    if 'A' <= c <= 'Z' then ((c as int) - ('A' as int) + ('a' as int)) as char else c
  }

  /** Python's str.lower(), on ASCII letters. */
  function Lower(s: string): (r: string)
    ensures |r| == |s|
    ensures forall k :: 0 <= k < |s| ==> r[k] == LowerChar(s[k])
  {
    seq(|s|, k requires 0 <= k < |s| => LowerChar(s[k]))
  }
}
