/** PostgreSQL's COPY text format as `populate_fact` writes it: one line per
    row, columns separated by a tab, `\N` for NULL, `t`/`f` for booleans,
    and a line feed after every row. The decoder reads a stream of such lines
    back into rows. */
module CopyText {
  import opened Common
  import opened Decimal
  import opened Fact

  // ---------------------------------------------------------------------------
  // Separated fields
  // ---------------------------------------------------------------------------

  predicate Free(s: string, sep: char)
  {
    forall k :: 0 <= k < |s| ==> s[k] != sep
  }

  /** The fields with one separator between each two. */
  function Join(fields: seq<string>, sep: char): string
    requires |fields| > 0
    decreases |fields|
  {
    if |fields| == 1 then fields[0] else fields[0] + [sep] + Join(fields[1..], sep)
  }

  /** The pieces of s between separators; n separators give n + 1 pieces. */
  function Split(s: string, sep: char): (fields: seq<string>)
    ensures |fields| > 0
    decreases |s|
  {
    if s == [] then [""]
    else if s[0] == sep then [""] + Split(s[1..], sep)
    else var rest := Split(s[1..], sep); [[s[0]] + rest[0]] + rest[1..]
  }

  lemma {:induction false} SplitPrefix(f: string, t: string, sep: char)
    requires Free(f, sep)
    ensures Split(f + t, sep) == [f + Split(t, sep)[0]] + Split(t, sep)[1..]
    decreases |f|
  {
    if f == [] {
      assert f + t == t;
      var r := Split(t, sep);
      assert f + r[0] == r[0];
      assert r == [r[0]] + r[1..];
    } else {
      assert (f + t)[1..] == f[1..] + t;
      SplitPrefix(f[1..], t, sep);
      assert [f[0]] + (f[1..] + Split(t, sep)[0]) == f + Split(t, sep)[0];
    }
  }

  /** Splitting undoes joining when no field holds the separator. */
  lemma {:induction false} SplitJoin(fields: seq<string>, sep: char)
    requires |fields| > 0
    requires forall i :: 0 <= i < |fields| ==> Free(fields[i], sep)
    ensures Split(Join(fields, sep), sep) == fields
    decreases |fields|
  {
    if |fields| == 1 {
      SplitPrefix(fields[0], [], sep);
      assert fields[0] + [] == fields[0];
    } else {
      var rest := [sep] + Join(fields[1..], sep);
      assert Join(fields, sep) == fields[0] + rest;
      SplitPrefix(fields[0], rest, sep);
      assert rest[1..] == Join(fields[1..], sep);
      SplitJoin(fields[1..], sep);
      assert fields[0] + "" == fields[0];
    }
  }

  lemma {:induction false} JoinSnoc(fields: seq<string>, x: string, sep: char)
    requires |fields| > 0
    ensures Join(fields + [x], sep) == Join(fields, sep) + [sep] + x
    decreases |fields|
  {
    if |fields| > 1 {
      assert (fields + [x])[1..] == fields[1..] + [x];
      JoinSnoc(fields[1..], x, sep);
    }
  }

  lemma {:induction false} JoinFree(fields: seq<string>, sep: char, c: char)
    requires |fields| > 0 && c != sep
    requires forall i :: 0 <= i < |fields| ==> Free(fields[i], c)
    ensures Free(Join(fields, sep), c)
    decreases |fields|
  {
    if |fields| > 1 {
      JoinFree(fields[1..], sep, c);
    }
  }

  // ---------------------------------------------------------------------------
  // One fact line
  // ---------------------------------------------------------------------------

  /** The NULL marker, a backslash and `N`. */
  const Null: string := "\\N"

  function NullableInt(v: Option<int>): string
  {
    if v.None? then Null else IntToString(v.value)
  }

  function NullableBrowser(b: Option<Browser>): string
  {
    if b.None? then Null else BrowserName(b.value)
  }

  function BoolText(b: bool): string
  {
    if b then "t" else "f"
  }

  lemma IntToStringFree(i: int)
    ensures Free(IntToString(i), '\t') && Free(IntToString(i), '\n')
    ensures IntToString(i) != Null
  {
    IntToStringShape(i);
    var s := IntToString(i);
    assert IsDigit(s[0]) || s[0] == '-';
  }

  lemma NullableIntFacts(v: Option<int>)
    ensures Free(NullableInt(v), '\t') && Free(NullableInt(v), '\n')
    ensures NullableInt(v) == Null <==> v.None?
    ensures v.Some? ==> ParseInt(NullableInt(v)) == Some(v.value)
  {
    if v.Some? {
      IntToStringFree(v.value);
      IntToStringRoundTrip(v.value);
    }
  }

  lemma PayMethodNameFree(p: PayMethod, c: char)
    requires c == '\t' || c == '\n'
    ensures Free(PayMethodName(p), c)
  {
    match p
    case Card =>
    case ApplePay =>
    case GooglePay =>
    case PayPal =>
    case Cash =>
  }

  lemma NullableBrowserFree(b: Option<Browser>, c: char)
    requires c == '\t' || c == '\n'
    ensures Free(NullableBrowser(b), c)
  {
    if b.Some? {
      match b.value
      case Chrome =>
      case Safari =>
      case Firefox =>
      case Edge =>
      case Opera =>
      case Brave =>
    }
  }

  /** The twelve columns of transaction_ft as text, in the script's order. */
  function FactFields(row: FactRow): (fs: seq<string>)
    ensures |fs| == 12
  {
    [IntToString(row.dateKey), IntToString(row.customerKey), IntToString(row.movieKey),
     IntToString(row.cinemaKey), NullableInt(row.promotionKey), IntToString(row.showingKey),
     IntToString(row.transactionId), PayMethodName(row.payMethod), BoolText(row.isOnline),
     NullableBrowser(row.browser), IntToString(row.ticketsSold), row.totalPrice]
  }

  /** Twelve fields, each free of c. */
  lemma TwelveFree(fs: seq<string>, c: char)
    requires |fs| == 12
    requires Free(fs[0], c) && Free(fs[1], c) && Free(fs[2], c) && Free(fs[3], c)
    requires Free(fs[4], c) && Free(fs[5], c) && Free(fs[6], c) && Free(fs[7], c)
    requires Free(fs[8], c) && Free(fs[9], c) && Free(fs[10], c) && Free(fs[11], c)
    ensures forall i :: 0 <= i < |fs| ==> Free(fs[i], c)
  {
  }

  /** No field holds a tab or a line feed. */
  lemma FactFieldsFree(row: FactRow, c: char)
    requires c == '\t' || c == '\n'
    ensures forall i :: 0 <= i < 12 ==> Free(FactFields(row)[i], c)
  {
    var fs := FactFields(row);
    IntFieldFree(fs, 0, row.dateKey, c);
    IntFieldFree(fs, 1, row.customerKey, c);
    IntFieldFree(fs, 2, row.movieKey, c);
    IntFieldFree(fs, 3, row.cinemaKey, c);
    NullableIntFacts(row.promotionKey);
    IntFieldFree(fs, 5, row.showingKey, c);
    IntFieldFree(fs, 6, row.transactionId, c);
    PayMethodNameFree(row.payMethod, c);
    NullableBrowserFree(row.browser, c);
    IntFieldFree(fs, 10, row.ticketsSold, c);
    TwelveFree(fs, c);
  }

  lemma IntFieldFree(fs: seq<string>, k: int, v: int, c: char)
    requires c == '\t' || c == '\n'
    requires 0 <= k < |fs| && fs[k] == IntToString(v)
    ensures Free(fs[k], c)
  {
    IntToStringFree(v);
  }

  /** The markers: a NULL column is `\N`, which no present value prints
      as; the flag is `t` or `f`, the names are the vocabulary words and the
      price is its own text. */
  lemma FactFieldsMarkers(row: FactRow)
    ensures var fs := FactFields(row);
      && (fs[4] == Null <==> row.promotionKey.None?)
      && (fs[9] == Null <==> row.browser.None?)
      && (fs[8] == "t" <==> row.isOnline) && (fs[8] == "f" <==> !row.isOnline)
      && fs[7] == PayMethodName(row.payMethod)
      && (row.browser.Some? ==> fs[9] == BrowserName(row.browser.value))
      && fs[11] == row.totalPrice
  {
    NullableIntFacts(row.promotionKey);
    if row.browser.Some? {
      match row.browser.value
      case Chrome =>
      case Safari =>
      case Firefox =>
      case Edge =>
      case Opera =>
      case Brave =>
    }
  }

  /** The numbers: every numeric column reads back as the row's value. */
  lemma FactFieldsNumbers(row: FactRow)
    ensures var fs := FactFields(row);
      && ParseInt(fs[0]) == Some(row.dateKey) && ParseInt(fs[1]) == Some(row.customerKey)
      && ParseInt(fs[2]) == Some(row.movieKey) && ParseInt(fs[3]) == Some(row.cinemaKey)
      && (row.promotionKey.Some? ==> ParseInt(fs[4]) == Some(row.promotionKey.value))
      && ParseInt(fs[5]) == Some(row.showingKey) && ParseInt(fs[6]) == Some(row.transactionId)
      && ParseInt(fs[10]) == Some(row.ticketsSold)
  {
    var fs := FactFields(row);
    NumberField(fs, 0, row.dateKey);
    NumberField(fs, 1, row.customerKey);
    NumberField(fs, 2, row.movieKey);
    NumberField(fs, 3, row.cinemaKey);
    if row.promotionKey.Some? {
      NumberField(fs, 4, row.promotionKey.value);
    }
    NumberField(fs, 5, row.showingKey);
    NumberField(fs, 6, row.transactionId);
    NumberField(fs, 10, row.ticketsSold);
  }

  /** A field printed from a number reads back as that number. */
  lemma NumberField(fs: seq<string>, k: int, v: int)
    requires 0 <= k < |fs| && fs[k] == IntToString(v)
    ensures ParseInt(fs[k]) == Some(v)
  {
    IntToStringRoundTrip(v);
  }

  /** The text between the tabs, without the line feed. */
  function FactBody(row: FactRow): string
  {
    Join(FactFields(row), '\t')
  }

  lemma FactBodyFree(row: FactRow)
    ensures Free(FactBody(row), '\n')
  {
    FactFieldsFree(row, '\n');
    JoinFree(FactFields(row), '\t', '\n');
  }

  /** The line `buf.write` receives for a row. */
  function EncodeFactLine(row: FactRow): (line: string)
    ensures |line| > 0 && line[|line| - 1] == '\n'
  {
    FactBody(row) + "\n"
  }

  /** A line holds exactly one line feed, at its end, and the text before it
      splits at the tabs into the twelve fields. */
  lemma EncodeFactLineFields(row: FactRow)
    ensures var line := EncodeFactLine(row);
      && Free(line[..|line| - 1], '\n')
      && Split(line[..|line| - 1], '\t') == FactFields(row)
  {
    var line := EncodeFactLine(row);
    assert line[..|line| - 1] == FactBody(row);
    FactBodyFree(row);
    FactFieldsFree(row, '\t');
    SplitJoin(FactFields(row), '\t');
  }

  function ParsePayMethod(s: string): Option<PayMethod>
  {
    if s == "Card" then Some(Card)
    else if s == "ApplePay" then Some(ApplePay)
    else if s == "GooglePay" then Some(GooglePay)
    else if s == "PayPal" then Some(PayPal)
    else if s == "Cash" then Some(Cash)
    else None
  }

  function ParseBrowser(s: string): Option<Browser>
  {
    if s == "Chrome" then Some(Chrome)
    else if s == "Safari" then Some(Safari)
    else if s == "Firefox" then Some(Firefox)
    else if s == "Edge" then Some(Edge)
    else if s == "Opera" then Some(Opera)
    else if s == "Brave" then Some(Brave)
    else None
  }

  lemma PayMethodNameRoundTrip(p: PayMethod)
    ensures ParsePayMethod(PayMethodName(p)) == Some(p)
  {
  }

  lemma BrowserNameRoundTrip(b: Browser)
    ensures ParseBrowser(BrowserName(b)) == Some(b)
  {
  }

  /** Reads the twelve fields of a row; None when any field is malformed. */
  function DecodeFields(fs: seq<string>): Option<FactRow>
    requires |fs| == 12
  {
    var dk, ck, mk, cik := ParseInt(fs[0]), ParseInt(fs[1]), ParseInt(fs[2]), ParseInt(fs[3]);
    var pk := if fs[4] == Null then Some(None) else if ParseInt(fs[4]).Some? then Some(ParseInt(fs[4])) else None;
    var sk, tid := ParseInt(fs[5]), ParseInt(fs[6]);
    var pm := ParsePayMethod(fs[7]);
    var online := if fs[8] == "t" then Some(true) else if fs[8] == "f" then Some(false) else None;
    var br := if fs[9] == Null then Some(None) else if ParseBrowser(fs[9]).Some? then Some(ParseBrowser(fs[9])) else None;
    var tickets := ParseInt(fs[10]);
    if dk.Some? && ck.Some? && mk.Some? && cik.Some? && pk.Some? && sk.Some? && tid.Some?
       && pm.Some? && online.Some? && br.Some? && tickets.Some? && 1 <= tickets.value <= 6
       && IsPriceText(fs[11])
    then
      Some(FactRow(dk.value, ck.value, mk.value, cik.value, pk.value, sk.value, tid.value,
                   pm.value, online.value, br.value, tickets.value, fs[11]))
    else None
  }

  /** Reads the text of a line before its line feed: twelve tab-separated
      fields. */
  function DecodeBody(body: string): Option<FactRow>
  {
    var fs := Split(body, '\t');
    if |fs| != 12 then None else DecodeFields(fs)
  }

  /** Reads one line: twelve tab-separated fields and a line feed. */
  function DecodeFactLine(line: string): Option<FactRow>
  {
    if |line| == 0 || line[|line| - 1] != '\n' then None else DecodeBody(line[..|line| - 1])
  }

  /** A line reads back as the row it was written from. */
  lemma DecodeEncodeFactLine(row: FactRow)
    ensures DecodeFactLine(EncodeFactLine(row)) == Some(row)
  {
    EncodeFactLineFields(row);
    FactFieldsMarkers(row);
    FactFieldsNumbers(row);
    PayMethodNameRoundTrip(row.payMethod);
    if row.browser.Some? {
      BrowserNameRoundTrip(row.browser.value);
    }
  }

  /** Distinct rows are written as distinct lines. */
  lemma EncodeFactLineInjective(a: FactRow, b: FactRow)
    ensures EncodeFactLine(a) == EncodeFactLine(b) <==> a == b
  {
    DecodeEncodeFactLine(a);
    DecodeEncodeFactLine(b);
  }

  // ---------------------------------------------------------------------------
  // A COPY stream
  // ---------------------------------------------------------------------------

  /** The texts of the items, each written by `write`, one after the other. */
  function WriteAll<T>(write: T -> string, xs: seq<T>): string
    decreases |xs|
  {
    if xs == [] then "" else WriteAll(write, xs[..|xs| - 1]) + write(xs[|xs| - 1])
  }

  /** Writing two runs of items one after the other gives the concatenation
      of their texts. */
  lemma {:induction false} WriteAllConcat<T>(write: T -> string, a: seq<T>, b: seq<T>)
    ensures WriteAll(write, a + b) == WriteAll(write, a) + WriteAll(write, b)
    decreases |b|
  {
    if b == [] {
      assert a + b == a;
    } else {
      var b' := b[..|b| - 1];
      assert (a + b)[..|a + b| - 1] == a + b';
      assert (a + b)[|a + b| - 1] == b[|b| - 1];
      WriteAllConcat(write, a, b');
    }
  }

  /** The contents of the `StringIO` buffer after writing the rows' lines in
      order. */
  function EncodeBuffer(rows: seq<FactRow>): string
  {
    WriteAll(EncodeFactLine, rows)
  }

  lemma EncodeBufferConcat(a: seq<FactRow>, b: seq<FactRow>)
    ensures EncodeBuffer(a + b) == EncodeBuffer(a) + EncodeBuffer(b)
  {
    WriteAllConcat(EncodeFactLine, a, b);
  }

  /** The text each item gives, in order. */
  function Lines<T>(body: T -> string, xs: seq<T>): (ls: seq<string>)
    ensures |ls| == |xs|
    decreases |xs|
  {
    if xs == [] then [] else Lines(body, xs[..|xs| - 1]) + [body(xs[|xs| - 1])]
  }

  lemma {:induction false} LinesIndex<T>(body: T -> string, xs: seq<T>)
    ensures forall i :: 0 <= i < |xs| ==> Lines(body, xs)[i] == body(xs[i])
    decreases |xs|
  {
    if xs != [] {
      LinesIndex(body, xs[..|xs| - 1]);
    }
  }

  /** No body of a row's line holds a line feed. */
  lemma BodiesFree(rows: seq<FactRow>)
    ensures forall i :: 0 <= i < |rows| ==> Free(Lines(FactBody, rows)[i], '\n')
  {
    LinesIndex(FactBody, rows);
    forall i | 0 <= i < |rows|
      ensures Free(Lines(FactBody, rows)[i], '\n')
    {
      FactBodyFree(rows[i]);
    }
  }

  /** Each body followed by a line feed. */
  function Terminated(bs: seq<string>): string
    decreases |bs|
  {
    if bs == [] then "" else Terminated(bs[..|bs| - 1]) + bs[|bs| - 1] + "\n"
  }

  /** Writing items whose texts are their bodies and a line feed gives the
      bodies, each terminated. */
  lemma {:induction false} WriteAllTerminated<T>(write: T -> string, body: T -> string, xs: seq<T>)
    requires forall x :: write(x) == body(x) + "\n"
    ensures WriteAll(write, xs) == Terminated(Lines(body, xs))
    decreases |xs|
  {
    if xs != [] {
      var init := xs[..|xs| - 1];
      WriteAllTerminated(write, body, init);
      var ls := Lines(body, xs);
      assert ls[..|ls| - 1] == Lines(body, init);
    }
  }

  /** A terminated list of texts is their join with a final empty field. */
  lemma {:induction false} TerminatedJoin(bs: seq<string>)
    ensures Terminated(bs) == Join(bs + [""], '\n')
    decreases |bs|
  {
    if bs != [] {
      var init := bs[..|bs| - 1];
      TerminatedJoin(init);
      assert bs == init + [bs[|bs| - 1]];
      JoinSnoc(bs, "", '\n');
      JoinLastField(init, bs[|bs| - 1], '\n');
    }
  }

  /** Filling the last, empty field of a join. */
  lemma JoinLastField(bs: seq<string>, b: string, sep: char)
    ensures Join(bs + [""], sep) + b == Join(bs + [b], sep)
  {
    if bs == [] {
      assert bs + [""] == [""] && bs + [b] == [b];
    } else {
      JoinSnoc(bs, "", sep);
      JoinSnoc(bs, b, sep);
    }
  }

  /** Reads each text in order; None as soon as one does not read. */
  function ReadAll<T>(read: string -> Option<T>, ls: seq<string>): Option<seq<T>>
    decreases |ls|
  {
    if ls == [] then Some([])
    else
      var init := ReadAll(read, ls[..|ls| - 1]);
      var last := read(ls[|ls| - 1]);
      if init.Some? && last.Some? then Some(init.value + [last.value]) else None
  }

  /** Reading back texts that each read back as their item gives the items. */
  lemma {:induction false} ReadAllLines<T>(read: string -> Option<T>, body: T -> string, xs: seq<T>)
    requires forall x :: read(body(x)) == Some(x)
    ensures ReadAll(read, Lines(body, xs)) == Some(xs)
    decreases |xs|
  {
    if xs != [] {
      var init := xs[..|xs| - 1];
      var ls := Lines(body, xs);
      assert ls[..|ls| - 1] == Lines(body, init);
      ReadAllLines(read, body, init);
      assert init + [xs[|xs| - 1]] == xs;
    }
  }

  /** Reads the rows of a whole buffer: lines ending in a line feed, with
      nothing after the last one. */
  function DecodeBuffer(buf: string): Option<seq<FactRow>>
  {
    var parts := Split(buf, '\n');
    if parts[|parts| - 1] != "" then None else ReadAll(DecodeBody, parts[..|parts| - 1])
  }

  /** The body of a line reads back as its row. */
  lemma DecodeFactBody(row: FactRow)
    ensures DecodeBody(FactBody(row)) == Some(row)
  {
    DecodeEncodeFactLine(row);
    var line := EncodeFactLine(row);
    assert line[..|line| - 1] == FactBody(row);
  }

  /** A whole COPY stream reads back as the rows written into it, in order. */
  lemma DecodeEncodeBuffer(rows: seq<FactRow>)
    ensures DecodeBuffer(EncodeBuffer(rows)) == Some(rows)
  {
    var bodies := Lines(FactBody, rows);
    var fields := bodies + [""];
    WriteAllTerminated(EncodeFactLine, FactBody, rows);
    TerminatedJoin(bodies);
    BodiesFree(rows);
    SplitJoin(fields, '\n');
    assert fields[..|fields| - 1] == bodies;
    forall row: FactRow
      ensures DecodeBody(FactBody(row)) == Some(row)
    {
      DecodeFactBody(row);
    }
    ReadAllLines(DecodeBody, FactBody, rows);
  }
}
