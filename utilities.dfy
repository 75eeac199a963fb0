/** The small helpers of the toolkit: secret censoring, the string-to-boolean rule, the choice
    of a command-line converter for an attribute value, and the status text of the CSV writer. */
module Utilities {
  import opened Common

  /** `censor_secret`: a secret shorter than ten characters is starred out completely; a longer
      one keeps its last ten characters and stars out the rest. */
  function CensorSecret(secret: string): (r: string)
    ensures |r| == |secret|
    ensures |secret| < 10 ==> forall i :: 0 <= i < |r| ==> r[i] == '*'
    ensures |secret| >= 10 ==>
              && (forall i :: 0 <= i < |secret| - 10 ==> r[i] == '*')
              && (forall i :: |secret| - 10 <= i < |secret| ==> r[i] == secret[i])
  {
    if |secret| < 10 then Repeat('*', |secret|)
    else Repeat('*', |secret| - 10) + secret[|secret| - 10..]
  }

  /** What the censored text gives away: only characters of the last ten positions, each in its
      own place. Censoring twice is the same as censoring once. */
  lemma CensorSecretReveals(secret: string)
    ensures forall i :: 0 <= i < |secret| && CensorSecret(secret)[i] != '*' ==>
              i >= |secret| - 10 && |secret| >= 10 && CensorSecret(secret)[i] == secret[i]
    ensures CensorSecret(CensorSecret(secret)) == CensorSecret(secret)
  {
    var once := CensorSecret(secret);
    var twice := CensorSecret(once);
    assert |twice| == |once|;
    forall i | 0 <= i < |once|
      ensures twice[i] == once[i]
    {
    }
  }

  /** The two documented examples of `censor_secret`. */
  lemma CensorSecretExamples()
    ensures CensorSecret("012345") == "******"
    ensures CensorSecret("ABCDEF0123456789") == "******0123456789"
  {
    assert CensorSecret("012345") == Repeat('*', 6);
    assert "ABCDEF0123456789"[6..] == "0123456789";
    assert Repeat('*', 6) == "******";
  }

  /** `str_to_bool`: any casing of "true" is true, every other string false. */
  function StrToBool(x: string): (b: bool)
    ensures b <==> |x| == 4 && forall i :: 0 <= i < 4 ==> x[i] == "true"[i] || x[i] == "TRUE"[i]
  {
    LowerCharsTrue(x);
    Lower(x) == "true"
  }

  /** The lower-case image of a character is a given lower-case letter exactly when the
      character is that letter in either case. */
  lemma LowerCharsTrue(x: string)
    ensures Lower(x) == "true" <==>
              |x| == 4 && forall i :: 0 <= i < 4 ==> x[i] == "true"[i] || x[i] == "TRUE"[i]
  {
    if |x| == 4 {
      if Lower(x) == "true" {
        forall i | 0 <= i < 4
          ensures x[i] == "true"[i] || x[i] == "TRUE"[i]
        {
          assert LowerChar(x[i]) == "true"[i];
        }
      }
      if forall i :: 0 <= i < 4 ==> x[i] == "true"[i] || x[i] == "TRUE"[i] {
        assert forall i :: 0 <= i < 4 ==> Lower(x)[i] == "true"[i];
      }
    }
  }

  /** Python's `str(b)` for a boolean. */
  function BoolText(b: bool): string {
    if b then "True" else "False"
  }

  /** `str_to_bool` reads back what `str()` writes for a boolean. */
  lemma StrToBoolRoundTrip(b: bool)
    ensures StrToBool(BoolText(b)) == b
  {
    if !b {
      assert BoolText(b)[0] == 'F';
    }
  }

  /** An attribute value, as far as `make_conversion_func` looks at it. Floats are kept as
      their text; anything else is known only by the name of its type. */
  datatype PyValue =
    | PyBool(b: bool)
    | PyInt(i: int)
    | PyFloat(text: string)
    | PyStr(s: string)
    | PyObject(typeName: string)

  /** `type(value).__name__`. */
  function TypeName(value: PyValue): string {
    match value
    case PyBool(_) => "bool"
    case PyInt(_) => "int"
    case PyFloat(_) => "float"
    case PyStr(_) => "str"
    case PyObject(name) => name
  }

  /** The converters `make_conversion_func` can return: `str_to_bool`, `int`, `float`, `str`. */
  datatype Converter = ToBool | ToInt | ToFloat | ToStr

  /** The name of the type a converter produces. */
  function ProducedType(c: Converter): string {
    match c
    case ToBool => "bool"
    case ToInt => "int"
    case ToFloat => "float"
    case ToStr => "str"
  }

  /** `make_conversion_func`: the converter chosen by the name of the value's type, and that
      name. The dispatch is on the name, so an object whose type is called "int" gets `int`. */
  function MakeConversionFunc(value: PyValue): (r: (Option<Converter>, string))
    ensures r.1 == TypeName(value)
    ensures r.0.Some? <==> TypeName(value) in ["bool", "int", "float", "str"]
    ensures r.0.Some? ==> ProducedType(r.0.value) == TypeName(value)
  {
    var name := TypeName(value);
    var converter :=
      if name == "bool" then Some(ToBool)
      else if name == "int" then Some(ToInt)
      else if name == "float" then Some(ToFloat)
      else if name == "str" then Some(ToStr)
      else None;
    (converter, name)
  }

  /** The four cases of the documented example: each built-in kind gets its own name. */
  lemma MakeConversionFuncExamples()
    ensures MakeConversionFunc(PyInt(1)) == (Some(ToInt), "int")
    ensures MakeConversionFunc(PyStr("string")) == (Some(ToStr), "str")
    ensures MakeConversionFunc(PyFloat("1.4")) == (Some(ToFloat), "float")
    ensures MakeConversionFunc(PyBool(true)) == (Some(ToBool), "bool")
  {
  }

  function DigitValue(c: char): nat
    requires '0' <= c <= '9'
  {
    c as int - '0' as int
  }

  /** A non-empty run of ASCII decimal digits, read as a number. */
  function ParseDigits(s: string): (n: Option<nat>)
    ensures n.Some? <==> |s| > 0 && forall i :: 0 <= i < |s| ==> '0' <= s[i] <= '9'
    decreases |s|
  {
    if |s| == 0 || !('0' <= s[|s| - 1] <= '9') then None
    else if |s| == 1 then Some(DigitValue(s[0]))
    else
      match ParseDigits(s[..|s| - 1])
      case None => None
      case Some(m) => Some(10 * m + DigitValue(s[|s| - 1]))
  }

  /** Python's `int(s)` on an optional minus sign followed by ASCII digits. */
  function ParseInt(s: string): Option<int> {
    if |s| > 0 && s[0] == '-' then
      match ParseDigits(s[1..])
      case None => None
      case Some(n) => Some(-(n as int))
    else
      match ParseDigits(s)
      case None => None
      case Some(n) => Some(n)
  }

  /** Python's `str(i)` for an integer. */
  function IntText(i: int): string {
    if i < 0 then "-" + NatToString(-i) else NatToString(i)
  }

  /** Applying a converter to command-line text. `float` is not interpreted here. */
  function Convert(c: Converter, text: string): Option<PyValue> {
    match c
    case ToBool => Some(PyBool(StrToBool(text)))
    case ToInt => (match ParseInt(text) case None => None case Some(i) => Some(PyInt(i)))
    case ToFloat => None
    case ToStr => Some(PyStr(text))
  }

  lemma DigitRoundTrip(d: nat)
    requires d < 10
    ensures DigitValue(DigitChar(d)) == d
  {
    assert "0123456789"[0] == '0';
    if d == 0 {} else if d == 1 {} else if d == 2 {} else if d == 3 {} else if d == 4 {}
    else if d == 5 {} else if d == 6 {} else if d == 7 {} else if d == 8 {} else {}
  }

  /** Reading one more digit multiplies by ten and adds it. */
  lemma ParseDigitsSnoc(t: string, c: char, m: nat, r: nat)
    requires ParseDigits(t) == Some(m) && '0' <= c <= '9' && r == 10 * m + DigitValue(c)
    ensures ParseDigits(t + [c]) == Some(r)
  {
    var s := t + [c];
    assert |s| > 1 && s[..|s| - 1] == t && s[|s| - 1] == c;
  }

  lemma {:induction false} ParseDigitsRoundTrip(n: nat)
    ensures ParseDigits(NatToString(n)) == Some(n)
    decreases n
  {
    if n < 10 {
      DigitRoundTrip(n);
    } else {
      var q, d := n / 10, n % 10;
      ParseDigitsRoundTrip(q);
      DigitRoundTrip(d);
      var t := NatToString(q) + [DigitChar(d)];
      assert 10 * q + DigitValue(DigitChar(d)) == n;
      ParseDigitsSnoc(NatToString(q), DigitChar(d), q, n);
      assert NatToString(n) == t;
    }
  }

  /** Python's `str()` of a boolean, an integer or a string. */
  function ValueText(value: PyValue): string
    requires value.PyBool? || value.PyInt? || value.PyStr?
  {
    match value
    case PyBool(b) => BoolText(b)
    case PyInt(i) => IntText(i)
    case PyStr(s) => s
  }

  lemma ParseIntRoundTrip(i: int)
    ensures ParseInt(IntText(i)) == Some(i)
  {
    var digits := NatToString(if i < 0 then -i else i);
    ParseDigitsRoundTrip(if i < 0 then -i else i);
    if i < 0 {
      var text := "-" + digits;
      assert text[0] == '-' && text[1..] == digits;
    } else {
      assert '0' <= digits[0] <= '9';
    }
  }

  /** The converter chosen for a boolean, an integer or a string turns the value's own text
      back into the value: `make_conversion_func` gives a converter for the type it names. */
  lemma ConvertRoundTrip(value: PyValue)
    requires value.PyBool? || value.PyInt? || value.PyStr?
    ensures MakeConversionFunc(value).0.Some?
    ensures Convert(MakeConversionFunc(value).0.value, ValueText(value)) == Some(value)
  {
    match value
    case PyBool(b) => StrToBoolRoundTrip(b);
    case PyInt(i) => ParseIntRoundTrip(i);
    case PyStr(_) =>
  }

  /** `_make_write_dictionary_status`: the message says whether the file is being deleted,
      appended to or created. */
  function WriteDictionaryStatus(append: bool, filepath: string, newfile: bool): (status: string)
    ensures Contains(status, filepath)
    ensures EndsWith(status, DeletedSuffix) <==> !append && !newfile
    ensures EndsWith(status, AppendedSuffix) <==> append && !newfile
    ensures EndsWith(status, CreatedSuffix) <==> newfile
  {
    var status :=
      if !append && !newfile then "Append is False, and " + filepath + " exists therefore" + DeletedSuffix
      else if !newfile && append then "Append is True, and " + filepath + " exists therefore" + AppendedSuffix
      else "New file " + filepath + CreatedSuffix;
    StatusSuffixes(status, append, filepath, newfile);
    status
  }

  const DeletedSuffix := " file is being deleted"
  const AppendedSuffix := " data is being appended"
  const CreatedSuffix := " is being created"

  lemma EndsWithConcat(a: string, b: string)
    ensures EndsWith(a + b, b)
  {
    assert (a + b)[|a + b| - |b|..] == b;
  }

  /** Of two suffixes of one string, the shorter is a suffix of the longer. */
  lemma EndsWithBoth(s: string, x: string, y: string)
    requires EndsWith(s, x) && EndsWith(s, y) && |x| <= |y|
    ensures EndsWith(y, x)
  {
    assert y[|y| - |x|..] == s[|s| - |x|..];
  }

  /** A string that ends with `x` does not end with `y` when neither of them ends with the
      other. */
  lemma EndsWithOne(s: string, x: string, y: string)
    requires EndsWith(s, x) && !EndsWith(x, y) && !EndsWith(y, x)
    ensures !EndsWith(s, y)
  {
    if EndsWith(s, y) {
      if |x| <= |y| { EndsWithBoth(s, x, y); } else { EndsWithBoth(s, y, x); }
    }
  }

  /** A message made of `head`, the path and a fixed ending carries the path and that ending
      and none of the other two. */
  lemma MessageParts(head: string, filepath: string, tail: string, ending: string)
    requires ending in [DeletedSuffix, AppendedSuffix, CreatedSuffix]
    ensures Contains(head + filepath + tail + ending, filepath)
    ensures forall e :: e in [DeletedSuffix, AppendedSuffix, CreatedSuffix] ==>
              (EndsWith(head + filepath + tail + ending, e) <==> e == ending)
  {
    MessagePath(head, filepath, tail + ending);
    assert head + filepath + tail + ending == head + filepath + (tail + ending);
    MessageEnding(head + filepath + tail, ending);
  }

  lemma MessagePath(head: string, filepath: string, rest: string)
    ensures Contains(head + filepath + rest, filepath)
  {
    assert head + filepath + rest == head + (filepath + rest);
    ContainsAt(filepath + rest, filepath, 0);
    ContainsInSuffix(head, filepath + rest, filepath);
  }

  lemma MessageEnding(front: string, ending: string)
    requires ending in [DeletedSuffix, AppendedSuffix, CreatedSuffix]
    ensures forall e :: e in [DeletedSuffix, AppendedSuffix, CreatedSuffix] ==>
              (EndsWith(front + ending, e) <==> e == ending)
  {
    EndsWithConcat(front, ending);
    SuffixesApart();
    forall e | e in [DeletedSuffix, AppendedSuffix, CreatedSuffix] && e != ending
      ensures !EndsWith(front + ending, e)
    {
      EndsWithOne(front + ending, ending, e);
    }
  }

  /** No status ending is a suffix of another. */
  lemma SuffixesApart()
    ensures !EndsWith(AppendedSuffix, CreatedSuffix) && !EndsWith(CreatedSuffix, AppendedSuffix)
    ensures !EndsWith(AppendedSuffix, DeletedSuffix) && !EndsWith(DeletedSuffix, AppendedSuffix)
    ensures !EndsWith(DeletedSuffix, CreatedSuffix) && !EndsWith(CreatedSuffix, DeletedSuffix)
  {
    assert AppendedSuffix[|AppendedSuffix| - 3] == 'd' && CreatedSuffix[|CreatedSuffix| - 3] == 't';
    assert DeletedSuffix[|DeletedSuffix| - 4] == 'e' && CreatedSuffix[|CreatedSuffix| - 4] == 'a';
  }

  lemma StatusSuffixes(status: string, append: bool, filepath: string, newfile: bool)
    requires status == if !append && !newfile then "Append is False, and " + filepath + " exists therefore" + DeletedSuffix
                       else if !newfile && append then "Append is True, and " + filepath + " exists therefore" + AppendedSuffix
                       else "New file " + filepath + CreatedSuffix
    ensures Contains(status, filepath)
    ensures EndsWith(status, DeletedSuffix) <==> !append && !newfile
    ensures EndsWith(status, AppendedSuffix) <==> append && !newfile
    ensures EndsWith(status, CreatedSuffix) <==> newfile
  {
    if !append && !newfile {
      MessageParts("Append is False, and ", filepath, " exists therefore", DeletedSuffix);
    } else if !newfile && append {
      MessageParts("Append is True, and ", filepath, " exists therefore", AppendedSuffix);
    } else {
      MessageParts("New file ", filepath, "", CreatedSuffix);
      assert "New file " + filepath + "" + CreatedSuffix == "New file " + filepath + CreatedSuffix;
    }
  }

  /** What `write_dictionary` does to the file system, given whether the output file exists:
      whether it removes the file first, whether it writes the header line, which header it
      writes (the keys of the first row), how many rows it writes, and the status it returns,
      `None` when `writerows` raises. */
  datatype WritePlan = WritePlan(removesFile: bool, writesHeader: bool, header: seq<string>, rowsWritten: nat,
                                 status: Option<string>)

  /** A row to write: its keys in dictionary order. */
  type RowKeys = seq<string>

  /** `DictWriter` writes a row whose keys are all among its field names; any other key raises
      `ValueError` (the default `extrasaction="raise"`). Missing keys are filled in. */
  predicate FitsHeader(row: RowKeys, header: seq<string>) {
    forall j :: 0 <= j < |row| ==> row[j] in header
  }

  /** The number of rows written before the first that does not fit the header. */
  function RowsBeforeStray(rows: seq<RowKeys>, header: seq<string>): (n: nat)
    ensures n <= |rows|
    ensures forall k :: 0 <= k < n ==> FitsHeader(rows[k], header)
    ensures n < |rows| ==> !FitsHeader(rows[n], header)
    decreases |rows|
  {
    if rows == [] then 0
    else if FitsHeader(rows[0], header) then 1 + RowsBeforeStray(rows[1..], header)
    else 0
  }

  /** `write_dictionary`, with the existence of the file as an input and the writes described.
      An empty list of rows raises `IndexError` at `output_rows[0]` (`None` here); a row with a
      key the first row lacks makes `writerows` raise after the removal, the header and the
      rows before it. */
  function WriteDictionary(outputFilepath: string, outputRows: seq<RowKeys>, append: bool, fileExists: bool)
    : (plan: Option<WritePlan>)
    ensures plan.None? <==> outputRows == []
    ensures plan.Some? ==>
              && plan.value.header == outputRows[0]
              && (plan.value.removesFile <==> !append && fileExists)
              && (plan.value.writesHeader <==> !append || !fileExists)
              && 1 <= plan.value.rowsWritten <= |outputRows|
              && (forall k :: 0 <= k < plan.value.rowsWritten ==> FitsHeader(outputRows[k], outputRows[0]))
              && (plan.value.status.None? <==>
                    exists k :: 0 <= k < |outputRows| && !FitsHeader(outputRows[k], outputRows[0]))
              && (plan.value.status.None? ==>
                    plan.value.rowsWritten < |outputRows| && !FitsHeader(outputRows[plan.value.rowsWritten], outputRows[0]))
    ensures plan.Some? && plan.value.status.Some? ==>
              var status := plan.value.status.value;
              && plan.value.rowsWritten == |outputRows|
              && Contains(status, outputFilepath)
              && !EndsWith(status, DeletedSuffix)
              && (EndsWith(status, AppendedSuffix) <==> append && fileExists)
              && (EndsWith(status, CreatedSuffix) <==> !append || !fileExists)
  {
    if outputRows == [] then None
    else
      var keys := outputRows[0];
      var newfile := !fileExists;
      var removes := !append && !newfile;
      var newfile' := if removes then true else newfile;
      var written := RowsBeforeStray(outputRows, keys);
      var status := if written < |outputRows| then None else Some(WriteDictionaryStatus(append, outputFilepath, newfile'));
      Some(WritePlan(removes, newfile', keys, written, status))
  }
}
