/** The human-readable description of an enqueue request that the node
    builds for its verbose log lines: one entry per queue item, in queue
    order, joined with ", " and wrapped in "RemoteOperation(...)". */
module RpcDescription {
  import opened Status

  newtype int64 = x: int | -0x8000_0000_0000_0000 <= x < 0x8000_0000_0000_0000
  newtype int32 = x: int | -0x8000_0000 <= x < 0x8000_0000

  /** A queue item is either an operation to run or a remote handle whose
      reference is to be dropped, named by the op that produced it and the output number. */
  datatype QueueItem = Operation(name: string) | HandleToDecref(opId: int64, outputNum: int32)

  datatype EnqueueRequest = EnqueueRequest(queue: seq<QueueItem>)

  predicate IsDigit(c: char) {
    '0' <= c <= '9'
  }

  predicate AllDigits(s: string) {
    forall i :: 0 <= i < |s| ==> IsDigit(s[i])
  }

  function DigitChar(d: nat): (c: char)
    requires d < 10
    ensures IsDigit(c) && DigitValue(c) == d
  {
    (d + '0' as int) as char
  }

  function DigitValue(c: char): nat
    requires IsDigit(c)
  {
    c as int - '0' as int
  }

  /** Decimal rendering of a natural number, most significant digit first. */
  function NatToDecimal(n: nat): (s: string)
    ensures |s| > 0 && AllDigits(s)
    ensures n > 0 ==> s[0] != '0'
  {
    if n < 10 then [DigitChar(n)] else NatToDecimal(n / 10) + [DigitChar(n % 10)]
  }

  /** Decimal rendering of an integer as string concatenation renders it:
      a minus sign before the digits of a negative number. */
  function IntToDecimal(n: int): string {
    if n < 0 then "-" + NatToDecimal(-n) else NatToDecimal(n)
  }

  /** The value of a non-empty string of digits. */
  function ParseDigits(s: string): nat
    requires |s| > 0 && AllDigits(s)
  {
    if |s| == 1 then DigitValue(s[0]) else 10 * ParseDigits(s[..|s| - 1]) + DigitValue(s[|s| - 1])
  }

  /** Reads back an optionally signed decimal integer; anything else is None. */
  function ParseDecimal(s: string): Option<int> {
    if |s| > 1 && s[0] == '-' && AllDigits(s[1..]) then Some(0 - ParseDigits(s[1..]) as int)
    else if |s| > 0 && AllDigits(s) then Some(ParseDigits(s))
    else None
  }

  lemma {:induction false} NatDecimalRoundTrip(n: nat)
    ensures ParseDigits(NatToDecimal(n)) == n
  {
    if n >= 10 {
      var s := NatToDecimal(n);
      var front := NatToDecimal(n / 10);
      assert s[..|s| - 1] == front;
      NatDecimalRoundTrip(n / 10);
    }
  }

  /** Every integer rendering reads back as the same integer. */
  lemma IntDecimalRoundTrip(n: int)
    ensures ParseDecimal(IntToDecimal(n)) == Some(n)
  {
    if n < 0 {
      var s := IntToDecimal(n);
      assert s[1..] == NatToDecimal(-n);
      NatDecimalRoundTrip(-n);
    } else {
      NatDecimalRoundTrip(n);
    }
  }

  /** The reference-drop token DeleteHandle(op_id:output_num). */
  function DecrefToken(opId: int64, outputNum: int32): string {
    "DeleteHandle(" + IntToDecimal(opId as int) + ":" + IntToDecimal(outputNum as int) + ")"
  }

  /** The entry of one queue item: the operation's name, or the reference-drop
      token, which names its handle unambiguously since both numbers read back. */
  function ItemEntry(item: QueueItem): (r: string)
    ensures item.Operation? ==> r == item.name
    ensures item.HandleToDecref? ==>
              ParseDecrefEntry(r) == Some((item.opId as int, item.outputNum as int))
  {
    match item
    case Operation(name) => name
    case HandleToDecref(opId, outputNum) =>
      DecrefTokenRoundTrip(opId, outputNum);
      DecrefToken(opId, outputNum)
  }

  /** The entries of a queue, one per item. */
  function Entries(queue: seq<QueueItem>): seq<string> {
    if |queue| == 0 then [] else [ItemEntry(queue[0])] + Entries(queue[1..])
  }

  /** Entry i describes item i, and there is exactly one entry per item. */
  lemma {:induction false} EntriesAt(queue: seq<QueueItem>)
    ensures |Entries(queue)| == |queue|
    ensures forall i :: 0 <= i < |queue| ==> Entries(queue)[i] == ItemEntry(queue[i])
  {
    if |queue| > 0 {
      EntriesAt(queue[1..]);
      assert forall i :: 1 <= i < |queue| ==> queue[1..][i - 1] == queue[i];
    }
  }

  predicate EndsWith(s: string, suffix: string) {
    |suffix| <= |s| && s[|s| - |suffix|..] == suffix
  }

  /** The parts separated by sep, as string joining produces them: nothing
      for no parts, otherwise the first part first and the last part last,
      neighbours separated by sep. */
  function Join(parts: seq<string>, sep: string): (r: string)
    ensures |parts| == 0 ==> r == ""
    ensures |parts| > 0 ==> parts[0] <= r && EndsWith(r, parts[|parts| - 1])
  {
    if |parts| == 0 then ""
    else if |parts| == 1 then parts[0]
    else parts[0] + sep + Join(parts[1..], sep)
  }

  /** Joining is also appending one separator and one part at the end. */
  lemma {:induction false} JoinSnoc(parts: seq<string>, last: string, sep: string)
    requires |parts| > 0
    ensures Join(parts + [last], sep) == Join(parts, sep) + sep + last
  {
    if |parts| > 1 {
      assert (parts + [last])[1..] == parts[1..] + [last];
      JoinSnoc(parts[1..], last, sep);
    } else {
      assert (parts + [last])[1..] == [last];
    }
  }

  /** The description of a request: empty when verbose logging is off;
      otherwise the wrapped entries, the first item's entry opening the list
      and the last item's entry closing it. */
  function Description(queue: seq<QueueItem>, verbose: bool): (r: string)
    ensures !verbose ==> r == ""
    ensures verbose && |queue| == 0 ==> r == "RemoteOperation()"
    ensures verbose && |queue| > 0 ==> "RemoteOperation(" + ItemEntry(queue[0]) <= r
    ensures verbose && |queue| > 0 ==> EndsWith(r, ItemEntry(queue[|queue| - 1]) + ")")
  {
    EntriesAt(queue);
    if verbose then "RemoteOperation(" + Join(Entries(queue), ", ") + ")" else ""
  }

  /** Appending an item to a non-empty queue appends ", " and its entry just
      before the closing parenthesis: the entries follow queue order. */
  lemma DescriptionAppend(queue: seq<QueueItem>, item: QueueItem)
    requires |queue| > 0
    ensures Description(queue + [item], true) ==
            "RemoteOperation(" + (Join(Entries(queue), ", ") + ", " + ItemEntry(item)) + ")"
  {
    EntriesSnoc(queue, item);
    JoinSnoc(Entries(queue), ItemEntry(item), ", ");
  }

  lemma EntriesSnoc(queue: seq<QueueItem>, item: QueueItem)
    ensures Entries(queue + [item]) == Entries(queue) + [ItemEntry(item)]
  {
    EntriesAt(queue);
    EntriesAt(queue + [item]);
  }

  /** Builds the description as the node does: collect the entries item by
      item, then join and wrap them. */
  method BuildRpcDescription(queue: seq<QueueItem>, verbose: bool) returns (description: string)
    ensures description == Description(queue, verbose)
  {
    description := "";
    if verbose {
      var ops: seq<string> := [];
      for i := 0 to |queue|
        invariant |ops| == i
        invariant forall j :: 0 <= j < i ==> ops[j] == ItemEntry(queue[j])
      {
        ops := ops + [ItemEntry(queue[i])];
      }
      EntriesAt(queue);
      assert ops == Entries(queue);
      description := "RemoteOperation(" + Join(ops, ", ") + ")";
    }
  }

  /** The index of the first occurrence of c in s. */
  function IndexOf(s: string, c: char): (r: Option<nat>)
    ensures r.Some? ==> r.value < |s| && s[r.value] == c
  {
    if |s| == 0 then None
    else if s[0] == c then Some(0)
    else match IndexOf(s[1..], c)
      case None => None
      case Some(k) => Some(k + 1)
  }

  lemma {:induction false} IndexOfAfterPrefix(a: string, c: char, b: string)
    requires c !in a
    ensures IndexOf(a + [c] + b, c) == Some(|a|)
  {
    if |a| > 0 {
      assert (a + [c] + b)[1..] == a[1..] + [c] + b;
      IndexOfAfterPrefix(a[1..], c, b);
    }
  }

  /** Reads back op_id and output_num from a DeleteHandle entry. */
  function ParseDecrefEntry(entry: string): Option<(int, int)> {
    var prefix := "DeleteHandle(";
    if |entry| <= |prefix| || entry[..|prefix|] != prefix || entry[|entry| - 1] != ')' then None
    else
      var body := entry[|prefix|..|entry| - 1];
      match IndexOf(body, ':')
      case None => None
      case Some(k) =>
        match (ParseDecimal(body[..k]), ParseDecimal(body[k + 1..]))
        case (Some(opId), Some(outputNum)) => Some((opId, outputNum))
        case _ => None
  }

  /** A decimal rendering holds no ':', so the separator in a token is the first one. */
  lemma NoColonInDecimal(n: int)
    ensures ':' !in IntToDecimal(n)
  {
  }

  /** The pieces ParseDecrefEntry cuts a token into. */
  lemma TokenPieces(left: string, right: string)
    ensures var entry := "DeleteHandle(" + left + ":" + right + ")";
            |entry| > |"DeleteHandle("| && entry[..|"DeleteHandle("|] == "DeleteHandle(" &&
            entry[|entry| - 1] == ')' && entry[|"DeleteHandle("|..|entry| - 1] == left + [':'] + right
  {
  }

  /** Splitting at the first ':' recovers both sides when the left one has none. */
  lemma SplitAtColon(left: string, right: string)
    requires ':' !in left
    ensures IndexOf(left + [':'] + right, ':') == Some(|left|)
    ensures (left + [':'] + right)[..|left|] == left
    ensures (left + [':'] + right)[|left| + 1..] == right
  {
    IndexOfAfterPrefix(left, ':', right);
  }

  /** A reference-drop token names its handle unambiguously: both numbers read back. */
  lemma DecrefTokenRoundTrip(opId: int64, outputNum: int32)
    ensures ParseDecrefEntry(DecrefToken(opId, outputNum)) == Some((opId as int, outputNum as int))
  {
    var left := IntToDecimal(opId as int);
    var right := IntToDecimal(outputNum as int);
    TokenPieces(left, right);
    NoColonInDecimal(opId as int);
    SplitAtColon(left, right);
    IntDecimalRoundTrip(opId as int);
    IntDecimalRoundTrip(outputNum as int);
  }
}
