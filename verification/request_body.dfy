/**
  The request body named by `-d/--data`: a literal string, or `@file` read
  either byte for byte (`--data-binary`) or line by line with `getline`,
  which drops every '\n'. Also the decimal Content-Length written for it.
  A character of a `string` here stands for one byte of the C++ string.
*/
module RequestBody {
  import opened Wrappers

  /** The reference definition of text mode: `s` with every '\n' removed. */
  function StripNewlines(s: string): string
  {
    if s == [] then []
    else (if s[0] == '\n' then [] else [s[0]]) + StripNewlines(s[1..])
  }

  /** The number of '\n' characters in `s`. */
  function CountNewlines(s: string): nat
  {
    if s == [] then 0
    else (if s[0] == '\n' then 1 else 0) + CountNewlines(s[1..])
  }

  /** Stripping removes exactly the newlines: the length drops by their count. */
  lemma {:induction false} StripNewlinesLength(s: string)
    ensures |StripNewlines(s)| == |s| - CountNewlines(s)
    ensures CountNewlines(s) <= |s|
  {
    if s != [] {
      StripNewlinesLength(s[1..]);
    }
  }

  /** Stripping distributes over concatenation. */
  lemma {:induction false} StripNewlinesAppend(a: string, b: string)
    ensures StripNewlines(a + b) == StripNewlines(a) + StripNewlines(b)
  {
    if a == [] {
      assert a + b == b;
    } else {
      assert (a + b)[1..] == a[1..] + b;
      StripNewlinesAppend(a[1..], b);
    }
  }

  /** A string without newlines is left as it is. */
  lemma {:induction false} StripNewlinesNoop(s: string)
    requires forall i :: 0 <= i < |s| ==> s[i] != '\n'
    ensures StripNewlines(s) == s
  {
    if s != [] {
      StripNewlinesNoop(s[1..]);
    }
  }

  /** The result of stripping holds no newline. */
  lemma {:induction false} StripNewlinesHasNone(s: string)
    ensures forall i :: 0 <= i < |StripNewlines(s)| ==> StripNewlines(s)[i] != '\n'
  {
    if s != [] {
      StripNewlinesHasNone(s[1..]);
    }
  }

  /**
    Where the line that `getline` reads from `pos` ends: the first '\n' at
    or after `pos`, or the end of the input.
  */
  function LineEnd(s: string, pos: nat): (e: nat)
    requires pos <= |s|
    decreases |s| - pos
    ensures pos <= e <= |s|
    ensures forall j :: pos <= j < e ==> s[j] != '\n'
    ensures e < |s| ==> s[e] == '\n'
  {
    if pos == |s| || s[pos] == '\n' then pos else LineEnd(s, pos + 1)
  }

  /**
    Stripping the text from `pos` keeps the line up to `LineEnd` and then
    strips what follows its '\n'.
  */
  lemma {:induction false} StripOneLine(s: string, pos: nat)
    requires pos < |s|
    ensures var e := LineEnd(s, pos);
            var next := if e < |s| then e + 1 else e;
            StripNewlines(s[pos..]) == s[pos..e] + StripNewlines(s[next..])
  {
    var e := LineEnd(s, pos);
    var next := if e < |s| then e + 1 else e;
    var line, sep, rest := s[pos..e], s[e..next], s[next..];
    assert s[pos..] == (line + sep) + rest;
    StripNewlinesAppend(line + sep, rest);
    StripNewlinesAppend(line, sep);
    StripNewlinesNoop(line);
    assert StripNewlines(sep) == [];
  }

  /**
    The text-mode loop `while (getline(in, line)) body << line;` from
    position `pos`: each call that extracts something (a line, or just its
    '\n') succeeds and appends the line without its '\n'; the call at the
    end of the input extracts nothing and ends the loop.
  */
  function ReadLines(s: string, pos: nat): (body: string)
    requires pos <= |s|
    decreases |s| - pos
    ensures body == StripNewlines(s[pos..])
  {
    if pos == |s| then []
    else
      var e := LineEnd(s, pos);
      var next := if e < |s| then e + 1 else e;
      StripOneLine(s, pos);
      s[pos..e] + ReadLines(s, next)
  }

  /**
    Only '\n' is dropped: a CRLF file read in text mode keeps its '\r'
    (13 bytes in, 11 out); no platform line-ending translation is modelled.
  */
  lemma CarriageReturnKept()
    ensures StripNewlines("line1\r\nline2\n") == "line1\rline2"
    ensures |StripNewlines("line1\r\nline2\n")| == 11
  {
  }

  /**
    A file that opened: its contents, and whether its stream can seek (a
    regular file can; a pipe or FIFO cannot).
  */
  datatype OpenedFile = OpenedFile(contents: string, seekable: bool)

  /** Opening a file by name; `None` is a file that fails to open. */
  type FileSystem = string -> Option<OpenedFile>

  /**
    The resolved body: its bytes, and the length `tellp()` reports after
    seeking to the end of the body stream (-1 when that seek fails).
  */
  datatype Body = Body(bytes: string, streamLength: int)

  /**
    The body `-d data` resolves to. Data starting with '@' names the file
    given by the rest of the string; a file that fails to open is an error
    carrying its name. In binary mode the file's stream is the body, so its
    reported length is the file's, or -1 when the file cannot seek; in text
    mode the body is an in-memory copy of the file without its '\n's. Any
    other data is an in-memory copy of the data verbatim.
  */
  function ResolveBody(data: string, binary: bool, files: FileSystem): (r: Result<Body, string>)
    requires data != []
    ensures data[0] != '@' ==> r == Success(Body(data, |data|))
    ensures data[0] == '@' && files(data[1..]).None? ==> r == Failure(data[1..])
    ensures data[0] == '@' && files(data[1..]).Some? && binary ==>
              var f := files(data[1..]).value;
              r == Success(Body(f.contents, if f.seekable then |f.contents| else -1))
    ensures data[0] == '@' && files(data[1..]).Some? && !binary ==>
              var f := files(data[1..]).value;
              r == Success(Body(StripNewlines(f.contents), |f.contents| - CountNewlines(f.contents)))
  {
    if data[0] == '@' then
      var fileName := data[1..];
      match files(fileName)
      case None => Failure(fileName)
      case Some(f) =>
        if binary then
          Success(Body(f.contents, if f.seekable then |f.contents| else -1))
        else
          var text := ReadLines(f.contents, 0);
          StripNewlinesLength(f.contents);
          Success(Body(text, |text|))
    else
      Success(Body(data, |data|))
  }

  /**
    The reported length is the body's own length except for a binary file
    that cannot seek, where it is -1.
  */
  lemma StreamLengthIsBodyLength(data: string, binary: bool, files: FileSystem)
    requires data != [] && ResolveBody(data, binary, files).Success?
    ensures var b := ResolveBody(data, binary, files).value;
            b.streamLength == |b.bytes| <==> !(data[0] == '@' && binary && !files(data[1..]).value.seekable)
    ensures var b := ResolveBody(data, binary, files).value;
            b.streamLength != |b.bytes| ==> b.streamLength == -1
  {
  }

  /** The body length in text mode is the file length less its newlines. */
  lemma TextModeLength(data: string, files: FileSystem)
    requires data != [] && data[0] == '@' && files(data[1..]).Some?
    ensures ResolveBody(data, false, files).Success?
    ensures |ResolveBody(data, false, files).value.bytes|
            == |files(data[1..]).value.contents| - CountNewlines(files(data[1..]).value.contents)
  {
  }

  /** The decimal digit for `d`. */
  function Digit(d: nat): char
    requires d < 10
  {
    "0123456789"[d]
  }

  predicate IsDigit(c: char)
  {
    '0' <= c <= '9'
  }

  /**
    The decimal text `intConverter << bodyLength` writes: digits only, with
    no leading zero.
  */
  function Decimal(n: nat): (s: string)
    decreases n
    ensures |s| >= 1
    ensures forall i :: 0 <= i < |s| ==> IsDigit(s[i])
    ensures n == 0 <==> s == "0"
    ensures s[0] == '0' ==> n == 0
  {
    if n < 10 then [Digit(n)] else Decimal(n / 10) + [Digit(n % 10)]
  }

  /** The number a string of decimal digits denotes. */
  function DecimalValue(s: string): nat
    requires forall i :: 0 <= i < |s| ==> IsDigit(s[i])
  {
    if s == [] then 0
    else
      var last := s[|s| - 1];
      assert IsDigit(last);
      DecimalValue(s[..|s| - 1]) * 10 + (last as int - '0' as int)
  }

  /** Reading the written Content-Length back gives the length. */
  lemma {:induction false} DecimalRoundTrip(n: nat)
    ensures DecimalValue(Decimal(n)) == n
  {
    var s := Decimal(n);
    if n >= 10 {
      DecimalRoundTrip(n / 10);
      assert s[..|s| - 1] == Decimal(n / 10);
    }
  }

  /**
    The Content-Length text `intConverter << bodyLength` writes for a
    stream length: its decimal digits, with a leading '-' when negative.
  */
  function LengthText(n: int): (s: string)
    ensures n >= 0 ==>
              |s| >= 1 && (s[0] == '0' ==> s == "0")
              && (forall i :: 0 <= i < |s| ==> IsDigit(s[i])) && DecimalValue(s) == n
    ensures n < 0 ==>
              |s| >= 2 && s[0] == '-' && s[1] != '0'
              && (forall i :: 1 <= i < |s| ==> IsDigit(s[i])) && DecimalValue(s[1..]) == -n
  {
    if n >= 0 then
      DecimalRoundTrip(n);
      Decimal(n)
    else
      DecimalRoundTrip(-n);
      var s := "-" + Decimal(-n);
      assert s[1..] == Decimal(-n);
      s
  }
}
