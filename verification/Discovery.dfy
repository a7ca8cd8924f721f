/** What the listening loop reads out of a packet of the proprietary discovery protocol. */
module Discovery {
  import opened Text

  const MARK: string := "acn-fctn"

  const MARKER: string := "esta.sdt/"

  /** The characters that end an address. */
  const DELIMITERS: seq<char> := [':', '/', ',', ')']

  /** A text up to its first delimiter. */
  function Head(s: string): (r: string)
    ensures |r| <= |s| && r == s[..|r|] && forall k :: 0 <= k < |r| ==> r[k] !in DELIMITERS
    ensures |r| < |s| ==> s[|r|] in DELIMITERS
  {
    if s == "" || s[0] in DELIMITERS then "" else [s[0]] + Head(s[1..])
  }

  /** The address in a payload: what follows the marker, up to a delimiter, or nothing without the marker. */
  function AddressIn(payload: string): string {
    var start := Index(payload, MARKER);
    if start == -1 then "" else Head(payload[start + |MARKER|..])
  }

  /** The value of a key: up to a closing parenthesis, or else up to a comma, or else all of it. */
  function ValueIn(payload: string, key: string): string {
    var start := Index(payload, key + "=");
    if start == -1 then "" else Value(payload[start + |key| + 1..])
  }

  function Value(rest: string): string {
    if Find(rest, ')') >= 0 then rest[..Find(rest, ')')]
    else if Find(rest, ',') >= 0 then rest[..Find(rest, ',')]
    else rest
  }

  /** The first of the first k delimiters, or -1 without one. */
  predicate FirstOf(s: string, k: nat, end: int)
    requires k <= |DELIMITERS|
  {
    -1 <= end < |s| && (end >= 0 ==> s[end] in DELIMITERS) &&
    forall j, i :: 0 <= j < k && 0 <= i < (if end >= 0 then end else |s|) ==> s[i] != DELIMITERS[j]
  }

  lemma NextDelimiter(s: string, k: nat, end: int)
    requires k < |DELIMITERS| && FirstOf(s, k, end)
    ensures var pos := Find(s, DELIMITERS[k]);
            FirstOf(s, k + 1, if pos != -1 && (end == -1 || pos < end) then pos else end)
  {
  }

  lemma NoneYet(s: string)
    ensures FirstOf(s, 0, -1)
  {
  }

  /** The least of the delimiters' first positions is where the head ends. */
  method FirstDelimiter(rest: string) returns (end: int)
    ensures FirstOf(rest, |DELIMITERS|, end)
  {
    hide Find, FirstOf;
    end := -1;
    NoneYet(rest);
    for k := 0 to |DELIMITERS|
      invariant FirstOf(rest, k, end)
    {
      var pos := Find(rest, DELIMITERS[k]);
      NextDelimiter(rest, k, end);
      if pos != -1 && (end == -1 || pos < end) {
        end := pos;
      }
    }
  }

  method ExtractIPFromPayload(payload: string) returns (ip: string)
    ensures ip == AddressIn(payload)
  {
    hide FirstOf, Head;
    var start := Index(payload, MARKER);
    if start == -1 {
      return "";
    }
    var rest := payload[start + |MARKER|..];
    var end := FirstDelimiter(rest);
    HeadEnds(rest, end);
    ip := if end == -1 then rest else rest[..end];
  }

  lemma HeadEnds(s: string, end: int)
    requires FirstOf(s, |DELIMITERS|, end)
    ensures -1 <= end < |s| && Head(s) == if end == -1 then s else s[..end]
  {
    var n := if end == -1 then |s| else end;
    forall i | 0 <= i < n
      ensures s[i] !in DELIMITERS
    {
      assert forall j :: 0 <= j < |DELIMITERS| ==> s[i] != DELIMITERS[j];
    }
    HeadLength(s, n);
  }

  lemma {:induction false} HeadLength(s: string, n: nat)
    requires n <= |s| && (forall k :: 0 <= k < n ==> s[k] !in DELIMITERS) && (n < |s| ==> s[n] in DELIMITERS)
    ensures |Head(s)| == n
  {
    if n > 0 {
      HeadLength(s[1..], n - 1);
    }
  }

  method ExtractValue(payload: string, key: string) returns (value: string)
    ensures value == ValueIn(payload, key)
  {
    hide Find, Index;
    var search := key + "=";
    var start := Index(payload, search);
    if start == -1 {
      return "";
    }
    var rest := payload[start + |search|..];
    var end := Find(rest, ')');
    if end == -1 {
      end := Find(rest, ',');
    }
    if end == -1 {
      return rest;
    }
    value := rest[..end];
  }

  /** An address after the first marker is found whole, whatever follows it: up to a colon, a slash, a comma or a
      closing parenthesis, or the end. */
  lemma AddressFound(before: string, address: string, after: string)
    requires FreeOf(address, Only(':')) && FreeOf(address, Only('/')) && FreeOf(address, Only(',')) &&
             FreeOf(address, Only(')'))
    requires after == "" || after[0] == ':' || after[0] == '/' || after[0] == ',' || after[0] == ')'
    requires Index(before + "esta.sdt/" + (address + after), "esta.sdt/") == |before|
    ensures AddressIn(before + "esta.sdt/" + (address + after)) == address
  {
    var rest := address + after;
    assert MARKER == "esta.sdt/";
    assert (before + MARKER + rest)[|before| + |MARKER|..] == rest;
    HeadLength(rest, |address|);
    assert rest[..|address|] == address;
  }

  /** Without a marker there is no address. */
  lemma NoAddress(payload: string)
    requires !Occurs(payload, "esta.sdt/")
    ensures AddressIn(payload) == ""
  {
    assert MARKER == "esta.sdt/";
  }

  /** A value is found whole where a closing parenthesis ends it, commas or not; without one in all that follows,
      up to the first comma; and without that too, all of it. */
  lemma ValueFound(before: string, key: string, value: string, after: string)
    requires FreeOf(value, Only(')'))
    requires Index(before + (key + "=") + (value + after), key + "=") == |before|
    ensures after != "" && after[0] == ')' ==> ValueIn(before + (key + "=") + (value + after), key) == value
    ensures FreeOf(after, Only(')')) && FreeOf(value, Only(',')) && (after == "" || after[0] == ',') ==>
              ValueIn(before + (key + "=") + (value + after), key) == value
  {
    hide Find, Index;
    ValueOfRest(value, after);
    assert (before + (key + "=") + (value + after))[|before| + |key| + 1..] == value + after;
  }

  lemma ValueOfRest(value: string, after: string)
    requires FreeOf(value, Only(')'))
    ensures after != "" && after[0] == ')' ==> Value(value + after) == value
    ensures FreeOf(after, Only(')')) && FreeOf(value, Only(',')) && (after == "" || after[0] == ',') ==>
              Value(value + after) == value
  {
    hide Find;
    var rest := value + after;
    assert rest[..|value|] == value;
    assert forall k :: 0 <= k < |rest| ==> rest[k] == if k < |value| then value[k] else after[k - |value|];
    if after != "" && after[0] == ')' {
      assert Find(rest, ')') == |value|;
    } else if FreeOf(after, Only(')')) && FreeOf(value, Only(',')) && (after == "" || after[0] == ',') {
      assert FreeOf(rest, Only(')'));
      assert Find(rest, ')') == -1 && Find(rest, ',') == if after == "" then -1 else |value|;
    }
  }

  lemma NoValue(payload: string, key: string)
    requires !Occurs(payload, key + "=")
    ensures ValueIn(payload, key) == ""
  {
  }
}
