/** `parse_http_header` and the list comprehension over `--http-headers`
    (`__main__.py` lines 278-288). */
module Headers {
  import opened Base

  /** A parsed header: its name and its value. */
  type Header = (string, string)

  /** Python's `str.isspace` on one character: the ASCII whitespace and
      separator controls, NEL, NO-BREAK SPACE and the Unicode space separators. */
  predicate IsSpace(c: char)
  {
    var n := c as int;
    || 0x09 <= n <= 0x0D || 0x1C <= n <= 0x20 || n == 0x85 || n == 0xA0
    || n == 0x1680 || 0x2000 <= n <= 0x200A || n == 0x2028 || n == 0x2029
    || n == 0x202F || n == 0x205F || n == 0x3000
  }

  /** The number of whitespace characters `s` starts with. */
  function LeadingSpaces(s: string): (n: nat)
    ensures n <= |s|
    ensures forall i | 0 <= i < n :: IsSpace(s[i])
    ensures n == |s| || !IsSpace(s[n])
  {
    if s != [] && IsSpace(s[0]) then 1 + LeadingSpaces(s[1..]) else 0
  }

  /** `s.lstrip()`: `s` less its leading whitespace. */
  function LStrip(s: string): string
  {
    s[LeadingSpaces(s)..]
  }

  /** The position of the first `c` in `s`, if any. */
  function IndexOf(s: string, c: char): (r: Option<nat>)
    ensures r.None? ==> forall j | 0 <= j < |s| :: s[j] != c
    ensures r.Some? ==> r.value < |s| && s[r.value] == c
    ensures r.Some? ==> forall j | 0 <= j < r.value :: s[j] != c
  {
    if s == [] then None
    else if s[0] == c then Some(0)
    else match IndexOf(s[1..], c)
      case None => None
      case Some(i) => Some(i + 1)
  }

  /** `name` is the text of `item` before its first colon. */
  predicate NameBeforeFirstColon(item: string, name: string)
  {
    && |name| < |item| && item[..|name|] == name && item[|name|] == ':'
    && ':' !in name
  }

  /** `each_item.split(':', maxsplit=1)` unpacked into name and value, the
      value left-stripped; an item without a colon fails the unpacking and is
      reported as an invalid header, carrying the item. The name is the text
      before the first colon. */
  function ParseHeader(item: string): (r: Result<Header, string>)
    ensures r.Err? <==> ':' !in item
    ensures r.Err? ==> r.error == item
    ensures r.Ok? ==> NameBeforeFirstColon(item, r.value.0)
  {
    match IndexOf(item, ':')
    case None => Err(item)
    case Some(i) => Ok((item[..i], LStrip(item[i + 1..])))
  }

  /** The value is everything after the first colon, later colons included,
      less its leading whitespace. */
  lemma ParseHeaderValue(item: string)
    requires ':' in item
    ensures var (name, value) := ParseHeader(item).value;
      var rest := item[|name| + 1..];
      && |value| <= |rest| && value == rest[|rest| - |value|..]
      && (value == [] || !IsSpace(value[0]))
      && forall i | 0 <= i < |rest| - |value| :: IsSpace(rest[i])
  {
  }

  /** A colon at `i` with none before it is the one `IndexOf` finds. */
  lemma IndexOfFirst(s: string, c: char, i: nat)
    requires i < |s| && s[i] == c && c !in s[..i]
    ensures IndexOf(s, c) == Some(i)
  {
  }

  /** Formatting a header as `Name: value` and parsing it back gives the
      header again, whatever colons the value holds. */
  lemma ParseFormattedHeader(name: string, value: string)
    requires ':' !in name
    requires value == [] || !IsSpace(value[0])
    ensures ParseHeader(name + ": " + value) == Ok((name, value))
  {
    var item := name + ": " + value;
    assert item[..|name|] == name;
    assert item[|name|] == ':';
    IndexOfFirst(item, ':', |name|);
    assert item[|name| + 1..] == [' '] + value;
  }

  /** The example header given in the option's help text. */
  lemma AuthorizationExample()
    ensures ParseHeader("Authorization: Basic dXNlcjpwYXNz") == Ok(("Authorization", "Basic dXNlcjpwYXNz"))
  {
    var name, value := "Authorization", "Basic dXNlcjpwYXNz";
    assert ':' !in name by {
      forall i | 0 <= i < |name| ensures name[i] != ':' { }
    }
    assert name + ": " + value == "Authorization: Basic dXNlcjpwYXNz" by {
      AuthorizationText();
    }
    ParseFormattedHeader(name, value);
  }

  /** The example header is its name, a colon, a space and its value. */
  lemma AuthorizationText()
    ensures "Authorization" + ": " + "Basic dXNlcjpwYXNz" == "Authorization: Basic dXNlcjpwYXNz"
  {
  }

  /** A header item without a colon is rejected. */
  lemma MalformedExample()
    ensures ParseHeader("malformed") == Err("malformed")
  {
    var item := "malformed";
    assert ':' !in item by {
      forall i | 0 <= i < |item| ensures item[i] != ':' { }
    }
  }

  /** `i` is the first item that does not parse. */
  predicate IsFirstInvalid(items: seq<string>, i: int)
  {
    && 0 <= i < |items| && ParseHeader(items[i]).Err?
    && forall j | 0 <= j < i :: ParseHeader(items[j]).Ok?
  }

  /** The comprehension `[parse_http_header(h) for h in items]`: items are
      parsed left to right and the first invalid one raises. */
  function ParseAll(items: seq<string>): (r: Result<seq<Header>, string>)
    ensures r.Ok? ==> |r.value| == |items|
    ensures r.Ok? ==> forall i | 0 <= i < |items| :: ParseHeader(items[i]) == Ok(r.value[i])
    ensures r.Err? ==> exists i :: IsFirstInvalid(items, i) && items[i] == r.error
  {
    if items == [] then Ok([])
    else
      var first := ParseHeader(items[0]);
      if first.Err? then
        assert IsFirstInvalid(items, 0);
        Err(first.error)
      else
        var rest := ParseAll(items[1..]);
        if rest.Err? then
          var i :| IsFirstInvalid(items[1..], i) && items[1..][i] == rest.error;
          assert IsFirstInvalid(items, i + 1) by {
            forall j | 0 <= j < i + 1 ensures ParseHeader(items[j]).Ok? {
              if j > 0 { assert items[j] == items[1..][j - 1]; }
            }
          }
          Err(rest.error)
        else
          assert forall i | 1 <= i < |items| :: items[i] == items[1..][i - 1];
          Ok([first.value] + rest.value)
  }

  /** A header list parses exactly when every item holds a colon; otherwise
      the first item without one is the one reported. */
  lemma ParseAllColons(items: seq<string>)
    ensures ParseAll(items).Ok? <==> forall i | 0 <= i < |items| :: ':' in items[i]
    ensures ParseAll(items).Err? ==> exists i ::
      (&& 0 <= i < |items| && items[i] == ParseAll(items).error && ':' !in items[i]
       && forall j | 0 <= j < i :: ':' in items[j])
  {
    if ParseAll(items).Err? {
      var i :| IsFirstInvalid(items, i) && items[i] == ParseAll(items).error;
      assert forall j | 0 <= j < i :: ':' in items[j] by {
        forall j | 0 <= j < i ensures ':' in items[j] {
          assert ParseHeader(items[j]).Ok?;
        }
      }
    }
  }

  /** Lines 286-288: an absent or empty header list gives `None`, not an
      empty list. Otherwise the list parses exactly when every item holds a
      colon, giving one header per item in the same order; if not, the first
      item without a colon is reported. */
  function ParseHttpHeaders(headers: Option<seq<string>>): (r: Result<Option<seq<Header>>, string>)
    ensures (headers.None? || headers.value == []) ==> r == Ok(None)
    ensures headers.Some? && headers.value != [] ==>
      (r.Ok? <==> forall i | 0 <= i < |headers.value| :: ':' in headers.value[i])
    ensures headers.Some? && headers.value != [] && r.Ok? ==>
      var items := headers.value;
      && r.value.Some? && |r.value.value| == |items|
      && forall i | 0 <= i < |items| :: ParseHeader(items[i]) == Ok(r.value.value[i])
    ensures r.Err? ==> exists i ::
      (&& 0 <= i < |headers.value| && headers.value[i] == r.error && ':' !in headers.value[i]
       && forall j | 0 <= j < i :: ':' in headers.value[j])
  {
    match headers
    case Some(items) =>
      if items == [] then Ok(None)
      else
        ParseAllColons(items);
        (match ParseAll(items)
         case Ok(hs) => Ok(Some(hs))
         case Err(e) => Err(e))
    case None => Ok(None)
  }
}
