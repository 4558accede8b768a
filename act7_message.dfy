/**
 * The messages of the act7 exercise (act7/message.py): sender and receiver
 * are agent ids, the content is a dictionary (kept as its list of entries
 * in insertion order, as Python does), and `send` appends to the one buffer
 * all messages share (the class attribute `environment_buffer`, an explicit
 * `MessageBuffer` object here).
 */
module Act7Messages {
  import opened Wrappers

  type Content = seq<(string, int)>

  /** `content[key]`: the value of the entry for `key`, or `None` where Python raises `KeyError`. */
  function Lookup(content: Content, key: string): (r: Option<int>)
    ensures r.Some? <==> exists k :: 0 <= k < |content| && content[k].0 == key
    ensures r.Some? ==> exists k :: 0 <= k < |content| && content[k] == (key, r.value)
    decreases |content|
  {
    if content == [] then None
    else if content[0].0 == key then Some(content[0].1)
    else
      var r := Lookup(content[1..], key);
      assert forall k :: 1 <= k < |content| ==> content[k] == content[1..][k - 1];
      r
  }

  // `str` of an integer, in decimal.

  function DigitChar(d: int): char
    requires 0 <= d < 10
  {
    "0123456789"[d]
  }

  function NatToString(n: nat): string
    decreases n
  {
    if n < 10 then [DigitChar(n)] else NatToString(n / 10) + [DigitChar(n % 10)]
  }

  /** `str(n)`. */
  function IntToString(n: int): string {
    if n < 0 then "-" + NatToString(-n) else NatToString(n)
  }

  predicate IsDigit(c: char) {
    '0' as int <= c as int <= '9' as int
  }

  /** The value of a string of decimal digits. */
  function DigitsValue(s: string): nat
    requires forall k :: 0 <= k < |s| ==> IsDigit(s[k])
    decreases |s|
  {
    if s == [] then 0
    else
      assert IsDigit(s[|s| - 1]);
      DigitsValue(s[..|s| - 1]) * 10 + (s[|s| - 1] as int - '0' as int)
  }

  /** `int(s)` for an optional minus sign followed by digits, `None` for anything else. */
  function ParseInt(s: string): Option<int> {
    if |s| > 1 && s[0] == '-' && forall k :: 1 <= k < |s| ==> IsDigit(s[k]) then
      var v: int := DigitsValue(s[1..]);
      Some(-v)
    else if |s| > 0 && forall k :: 0 <= k < |s| ==> IsDigit(s[k]) then Some(DigitsValue(s))
    else None
  }

  lemma {:induction false} NatToStringDigits(n: nat)
    ensures |NatToString(n)| > 0
    ensures forall k :: 0 <= k < |NatToString(n)| ==> IsDigit(NatToString(n)[k])
    ensures DigitsValue(NatToString(n)) == n
    decreases n
  {
    if n < 10 {
      DigitCharValue(n);
    } else {
      NatToStringDigits(n / 10);
      DigitCharValue(n % 10);
      var s, d := NatToString(n), NatToString(n / 10);
      assert s[..|s| - 1] == d && s[|s| - 1] == DigitChar(n % 10);
      assert DigitsValue(s) == DigitsValue(d) * 10 + n % 10;
    }
  }

  /** A digit character stands for its digit. */
  lemma DigitCharValue(d: int)
    requires 0 <= d < 10
    ensures IsDigit(DigitChar(d)) && DigitChar(d) as int - '0' as int == d
  {
  }

  /** `int(str(n)) == n`: the decimal rendering loses nothing. */
  lemma IntToStringRoundTrip(n: int)
    ensures ParseInt(IntToString(n)) == Some(n)
  {
    if n < 0 {
      NegativeRoundTrip(n);
    } else {
      NatRoundTrip(n);
    }
  }

  lemma NegativeRoundTrip(n: int)
    requires n < 0
    ensures ParseInt(IntToString(n)) == Some(n)
  {
    var d := NatToString(-n);
    NatToStringDigits(-n);
    ParseSigned(d);
    var v: int := DigitsValue(d);
    assert IntToString(n) == "-" + d && v == -n;
  }

  /** A minus sign followed by digits parses to the negated value of the digits. */
  lemma ParseSigned(d: string)
    requires |d| > 0 && forall k :: 0 <= k < |d| ==> IsDigit(d[k])
    ensures var v: int := DigitsValue(d); ParseInt("-" + d) == Some(-v)
  {
    var s := "-" + d;
    assert s[1..] == d;
    forall k | 1 <= k < |s|
      ensures IsDigit(s[k])
    {
      assert s[k] == d[k - 1];
    }
  }

  lemma NatRoundTrip(n: nat)
    ensures ParseInt(IntToString(n)) == Some(n)
  {
    var s := NatToString(n);
    NatToStringDigits(n);
    assert IsDigit(s[0]);
    assert s[0] != '-';
  }

  /** `str(n)` has no comma in it. */
  lemma IntToStringHasNoComma(n: int)
    ensures forall k :: 0 <= k < |IntToString(n)| ==> IntToString(n)[k] != ','
  {
    var s := IntToString(n);
    assert !IsDigit(',');
    if n < 0 {
      NatToStringDigits(-n);
      assert forall k :: 1 <= k < |s| ==> s[k] == NatToString(-n)[k - 1];
    } else {
      NatToStringDigits(n);
    }
  }

  /**
   * `str` of a dictionary with string keys and integer values: its entries in
   * order, each key between single quotes, inside braces.  Python quotes a key
   * with `repr`, which escapes backslashes and unprintable characters and
   * switches to double quotes for a key holding a single quote, and a
   * dictionary never repeats a key; so this agrees with Python exactly for
   * distinct keys free of quotes, backslashes and unprintable characters.
   */
  function DictRepr(content: Content): (r: string)
    ensures |r| >= 2 && r[0] == '{' && r[|r| - 1] == '}'
    ensures r == "{}" <==> content == []
  {
    "{" + EntriesRepr(content) + "}"
  }

  /** The entries of `DictRepr`, separated by commas; each starts with its key's opening quote. */
  function EntriesRepr(content: Content): (r: string)
    ensures content == [] <==> r == ""
    ensures content != [] ==> r[0] == '\''
    decreases |content|
  {
    if content == [] then ""
    else
      var entry := "'" + content[0].0 + "': " + IntToString(content[0].1);
      if |content| == 1 then entry else entry + ", " + EntriesRepr(content[1..])
  }

  class Message {
    const sender: int
    const receiver: int
    const performative: string
    const content: Content

    /** `__init__`: the four fields as given. */
    constructor (sender: int, receiver: int, performative: string, content: Content)
      ensures this.sender == sender && this.receiver == receiver
      ensures this.performative == performative && this.content == content
    {
      this.sender := sender;
      this.receiver := receiver;
      this.performative := performative;
      this.content := content;
    }

    /** `__str__`: Sender, Receiver, Performative and Content, in that order. */
    function ToString(): (r: string)
      ensures |r| > 8 && r[..8] == "Sender: " && r[|r| - 1] == '}'
    {
      "Sender: " + (IntToString(sender) + (", Receiver: " + (IntToString(receiver)
        + (", Performative: " + (performative + (", Content: " + DictRepr(content)))))))
    }

    /** `send`: this message goes at the end of the shared buffer; what was there stays, in order. */
    method Send(buffer: MessageBuffer)
      modifies buffer`messages
      ensures buffer.messages == old(buffer.messages) + [this]
    {
      buffer.messages := buffer.messages + [this];
    }
  }

  /** `Message.environment_buffer`. */
  class MessageBuffer {
    var messages: seq<Message>

    constructor ()
      ensures messages == []
    {
      messages := [];
    }
  }

  /** In `a + (sep + x) == b + (sep + y)` with `sep` starting with a comma and no comma in `a` or `b`, the heads agree. */
  lemma CommaSeparatedHead(a: string, sep: string, x: string, b: string, y: string)
    requires forall k :: 0 <= k < |a| ==> a[k] != ','
    requires forall k :: 0 <= k < |b| ==> b[k] != ','
    requires |sep| > 0 && sep[0] == ','
    requires a + (sep + x) == b + (sep + y)
    ensures a == b && x == y
  {
    var s := a + (sep + x);
    assert forall k :: 0 <= k < |a| ==> s[k] == a[k];
    assert forall k :: 0 <= k < |b| ==> s[k] == b[k];
    assert s[|a|] == ',' && s[|b|] == ',';
    assert |a| == |b|;
    assert a == s[..|a|] == b;
    assert x == s[|a| + |sep|..] == y;
  }

  /** A common prefix cancels. */
  lemma PrefixCancels(p: string, x: string, y: string)
    requires p + x == p + y
    ensures x == y
  {
    assert x == (p + x)[|p|..];
  }

  /** The rendering names its sender and receiver unambiguously: equal strings mean equal ids. */
  lemma ToStringDeterminesIds(m1: Message, m2: Message)
    requires m1.ToString() == m2.ToString()
    ensures m1.sender == m2.sender && m1.receiver == m2.receiver
  {
    IntToStringHasNoComma(m1.sender);
    IntToStringHasNoComma(m2.sender);
    IntToStringHasNoComma(m1.receiver);
    IntToStringHasNoComma(m2.receiver);
    var rest1 := ", Performative: " + (m1.performative + (", Content: " + DictRepr(m1.content)));
    var rest2 := ", Performative: " + (m2.performative + (", Content: " + DictRepr(m2.content)));
    var tail1 := IntToString(m1.receiver) + rest1;
    var tail2 := IntToString(m2.receiver) + rest2;
    PrefixCancels("Sender: ", IntToString(m1.sender) + (", Receiver: " + tail1), IntToString(m2.sender) + (", Receiver: " + tail2));
    CommaSeparatedHead(IntToString(m1.sender), ", Receiver: ", tail1, IntToString(m2.sender), tail2);
    var p1 := m1.performative + (", Content: " + DictRepr(m1.content));
    var p2 := m2.performative + (", Content: " + DictRepr(m2.content));
    CommaSeparatedHead(IntToString(m1.receiver), ", Performative: ", p1, IntToString(m2.receiver), p2);
    IntToStringRoundTrip(m1.sender);
    IntToStringRoundTrip(m2.sender);
    IntToStringRoundTrip(m1.receiver);
    IntToStringRoundTrip(m2.receiver);
  }
}
