/** Comma-separated peer lists: what the configuration check accepts and what the session parses. */
module PeerLists {
  import opened Prelude
  import opened Bytes
  import opened Endpoints

  const COMMA: byte := 44

  predicate Blank(b: byte) {
    b == 32 || b == 9
  }

  /** Where the first byte that is not blank stands. */
  function Lead(s: bytes): (n: nat)
    ensures n <= |s| && (forall k :: 0 <= k < n ==> Blank(s[k])) && (n < |s| ==> !Blank(s[n]))
  {
    if s != [] && Blank(s[0]) then 1 + Lead(s[1..]) else 0
  }

  /** One past the last byte that is not blank. */
  function Tail(s: bytes): (n: nat)
    ensures n <= |s| && (forall k :: n <= k < |s| ==> Blank(s[k])) && (n > 0 ==> !Blank(s[n - 1]))
  {
    if s != [] && Blank(s[|s| - 1]) then Tail(s[..|s| - 1]) else |s|
  }

  predicate AllBlank(s: bytes) {
    Lead(s) == |s|
  }

  function Trim(s: bytes): bytes {
    if AllBlank(s) then [] else s[Lead(s)..Tail(s)]
  }

  /** The texts between the commas. */
  function Items(value: bytes, start: nat): (items: seq<bytes>)
    requires start <= |value|
    ensures items != []
    decreases |value| - start
  {
    var comma := Find(value, [COMMA], start);
    if comma.None? then [value[start..]] else [value[start..comma.value]] + Items(value, comma.value + 1)
  }

  function Left(value: bytes, start: nat): seq<bytes> {
    if start <= |value| then Items(value, start) else []
  }

  /** The items that are not blank, trimmed. */
  function Written(items: seq<bytes>): seq<bytes> {
    if items == [] then []
    else if AllBlank(items[0]) then Written(items[1..])
    else [Trim(items[0])] + Written(items[1..])
  }

  /** All results, if every item has one. */
  function MapAll<T>(f: bytes -> Option<T>, items: seq<bytes>): Option<seq<T>> {
    if items == [] then Some([])
    else
      var first, rest := f(items[0]), MapAll(f, items[1..]);
      if first.None? || rest.None? then None else Some([first.value] + rest.value)
  }

  function ItemEndpoint(item: bytes): Option<Endpoint> {
    ParseEndpoint(Trim(item))
  }

  /** The endpoints of a list. */
  function Peers(value: bytes): Option<seq<Endpoint>> {
    MapAll(ItemEndpoint, Items(value, 0))
  }

  predicate Parses(text: bytes) {
    ParseEndpoint(text).Some?
  }

  predicate All(p: bytes -> bool, texts: seq<bytes>) {
    forall i :: 0 <= i < |texts| ==> p(texts[i])
  }

  // --- the loops -----------------------------------------------------------------------------------------------------

  method TrimListItem(value: bytes) returns (r: bytes)
    ensures r == Trim(value)
  {
    var begin := 0;
    while begin < |value| && Blank(value[begin])
      invariant begin <= |value| && forall k :: 0 <= k < begin ==> Blank(value[k])
    {
      begin := begin + 1;
    }
    var end := |value|;
    while end > begin && Blank(value[end - 1])
      invariant begin <= end <= |value| && forall k :: end <= k < |value| ==> Blank(value[k])
    {
      end := end - 1;
    }
    assert begin == Lead(value) && (begin < |value| ==> end == Tail(value));
    return value[begin..end];
  }

  lemma {:induction false} WrittenAdds(a: seq<bytes>, b: seq<bytes>)
    ensures Written(a + b) == Written(a) + Written(b)
    decreases |a|
  {
    if a == [] {
      assert a + b == b;
    } else {
      assert (a + b)[1..] == a[1..] + b;
      WrittenAdds(a[1..], b);
    }
  }

  /** The item up to the next comma, or the last one, and what is left behind it. */
  lemma NextItem(value: bytes, start: nat, found: Option<nat>, end: nat)
    requires start <= |value| && found == Find(value, [COMMA], start) &&
             end == (if found.None? then |value| else found.value)
    ensures end + 1 <= |value| || found.None?
    ensures Items(value, start) == [value[start..end]] + Left(value, end + 1)
  {
    if found.None? {
      assert value[start..] == value[start..end] && [value[start..]] + [] == [value[start..]];
    } else {
      assert Left(value, end + 1) == Items(value, end + 1);
    }
  }

  lemma Adds(whole: seq<bytes>, done: seq<bytes>, item: bytes, left: seq<bytes>, rest: seq<bytes>)
    requires whole == done + left && left == [item] + rest
    ensures whole == done + [item] + rest && (rest == [] ==> whole == done + [item])
  {
  }

  method SplitCommaList(value: bytes) returns (out: seq<bytes>)
    ensures out == Written(Items(value, 0))
  {
    out := [];
    var start := 0;
    ghost var done: seq<bytes> := [];
    while start <= |value|
      invariant out == Written(done)
      invariant Items(value, 0) == done + Left(value, start) && (start > |value| ==> Items(value, 0) == done)
    {
      var found := Find(value, [COMMA], start);
      var comma := if found.None? then |value| else found.value;
      var item := value[start..comma];
      NextItem(value, start, found, comma);
      Adds(Items(value, 0), done, item, Items(value, start), Left(value, comma + 1));
      WrittenLast(done, item);
      if Lead(item) < |item| {
        out := out + [item[Lead(item)..Tail(item)]];
      }
      done := done + [item];
      start := comma + 1;
    }
  }

  lemma WrittenLast(done: seq<bytes>, item: bytes)
    ensures Written(done + [item]) == Written(done) + if AllBlank(item) then [] else [Trim(item)]
  {
    WrittenAdds(done, [item]);
  }

  method IsHostPortList(value: bytes) returns (ok: bool)
    ensures ok == Accepted(value)
  {
    var endpoints := SplitCommaList(value);
    if endpoints == [] {
      return false;
    }
    for i := 0 to |endpoints|
      invariant All(Parses, endpoints[..i])
    {
      var fine := IsHostPort(endpoints[i]);
      if !fine {
        return false;
      }
      assert endpoints[..i + 1] == endpoints[..i] + [endpoints[i]];
    }
    assert endpoints[..|endpoints|] == endpoints;
    return true;
  }

  lemma {:induction false} MapAllAdds<T>(f: bytes -> Option<T>, a: seq<bytes>, b: seq<bytes>)
    ensures var x, y := MapAll(f, a), MapAll(f, b);
            MapAll(f, a + b) == if x.None? || y.None? then None else Some(x.value + y.value)
    decreases |a|
  {
    if a == [] {
      assert a + b == b;
      if MapAll(f, b).Some? { assert [] + MapAll(f, b).value == MapAll(f, b).value; }
    } else {
      assert (a + b)[0] == a[0] && (a + b)[1..] == a[1..] + b;
      MapAllAdds(f, a[1..], b);
      var x, y := MapAll(f, a[1..]), MapAll(f, b);
      if f(a[0]).Some? && x.Some? && y.Some? {
        assert [f(a[0]).value] + (x.value + y.value) == [f(a[0]).value] + x.value + y.value;
      }
    }
  }

  lemma MapAllNext<T>(f: bytes -> Option<T>, done: seq<bytes>, item: bytes, rest: seq<bytes>)
    requires MapAll(f, done).Some?
    ensures f(item).None? ==> MapAll(f, done + ([item] + rest)) == None
    ensures f(item).Some? ==> MapAll(f, done + [item]) == Some(MapAll(f, done).value + [f(item).value])
  {
    assert [item][1..] == [] && MapAll(f, []) == Some([]);
    if f(item).Some? { assert [f(item).value] + [] == [f(item).value]; }
    assert MapAll(f, [item]) == if f(item).None? then None else Some([f(item).value]);
    MapAllAdds(f, done, [item]);
    MapAllAdds(f, [item], rest);
    MapAllAdds(f, done, [item] + rest);
  }

  /** The items up to start have been read, and done lists them. */
  ghost predicate ReadSoFar(value: bytes, start: nat, done: seq<bytes>) {
    start <= |value| && Items(value, 0) == done + Items(value, start)
  }

  lemma ListStep<T>(f: bytes -> Option<T>, value: bytes, done: seq<bytes>, begin: nat, comma: Option<nat>, end: nat,
                    next: nat, item: bytes)
    requires MapAll(f, done).Some? && ReadSoFar(value, begin, done) && comma == Find(value, [COMMA], begin)
    requires end == (if comma.None? then |value| else comma.value) && item == value[begin..end] && next == end + 1
    ensures f(item).None? ==> MapAll(f, Items(value, 0)) == None
    ensures f(item).Some? ==> MapAll(f, done + [item]) == Some(MapAll(f, done).value + [f(item).value])
    ensures if comma.None? then Items(value, 0) == done + [item] else ReadSoFar(value, next, done + [item])
  {
    NextItem(value, begin, comma, end);
    MapAllNext(f, done, item, Left(value, next));
    Adds(Items(value, 0), done, item, Items(value, begin), Left(value, next));
  }

  method ParseItem(item: bytes) returns (endpoint: Option<Endpoint>)
    ensures endpoint == ItemEndpoint(item)
  {
    var text := TrimListItem(item);
    endpoint := ParseEndpoint(text);
  }

  method ParseEndpointList(value: bytes) returns (endpoints: Option<seq<Endpoint>>)
    ensures endpoints == Peers(value)
  {
    var parsed: seq<Endpoint> := [];
    var begin := 0;
    ghost var done: seq<bytes> := [];
    while begin <= |value|
      invariant MapAll(ItemEndpoint, done) == Some(parsed) && ReadSoFar(value, begin, done)
    {
      var comma := Find(value, [COMMA], begin);
      var end := if comma.None? then |value| else comma.value;
      var item, next := value[begin..end], end + 1;
      ListStep(ItemEndpoint, value, done, begin, comma, end, next, item);
      var endpoint := ParseItem(item);
      if endpoint.None? {
        return None;
      }
      parsed := parsed + [endpoint.value];
      if comma.None? {
        return Some(parsed);
      }
      done := done + [item];
      begin := next;
    }
    assert false;
  }

  // --- the two agree but for blank items -----------------------------------------------------------------------------

  predicate NoBlankItem(items: seq<bytes>) {
    forall i :: 0 <= i < |items| ==> !AllBlank(items[i])
  }

  lemma {:induction false} MapAllIff<T>(f: bytes -> Option<T>, items: seq<bytes>)
    ensures MapAll(f, items).Some? <==> forall i :: 0 <= i < |items| ==> f(items[i]).Some?
    ensures MapAll(f, items).Some? ==> |MapAll(f, items).value| == |items|
  {
    if items == [] {
      assert MapAll(f, items) == Some([]);
    } else {
      MapAllIff(f, items[1..]);
      assert forall i :: 0 <= i < |items| - 1 ==> items[1..][i] == items[i + 1];
      assert forall i :: 0 < i < |items| ==> items[i] == items[1..][i - 1];
    }
  }

  lemma {:induction false} WrittenAll(p: bytes -> bool, items: seq<bytes>)
    ensures All(p, Written(items)) <==> forall i :: 0 <= i < |items| && !AllBlank(items[i]) ==> p(Trim(items[i]))
    ensures Written(items) == [] <==> forall i :: 0 <= i < |items| ==> AllBlank(items[i])
  {
    if items == [] {
      assert Written(items) == [];
    } else {
      var rest := Written(items[1..]);
      WrittenAll(p, items[1..]);
      assert forall i :: 0 <= i < |items| - 1 ==> items[1..][i] == items[i + 1];
      assert forall i :: 0 < i < |items| ==> items[i] == items[1..][i - 1];
      AllFirst(p, Trim(items[0]), rest);
    }
  }

  lemma AllFirst(p: bytes -> bool, text: bytes, rest: seq<bytes>)
    ensures All(p, [text] + rest) <==> p(text) && All(p, rest)
  {
    assert forall i :: 0 <= i < |rest| ==> ([text] + rest)[i + 1] == rest[i];
    assert ([text] + rest)[0] == text;
  }

  lemma ItemParses(item: bytes)
    ensures ItemEndpoint(item).Some? <==> !AllBlank(item) && Parses(Trim(item))
  {
  }

  /** What the check accepts. */
  predicate Accepted(value: bytes) {
    Written(Items(value, 0)) != [] && All(Parses, Written(Items(value, 0)))
  }

  /** What the session can parse the check accepts; what the check accepts the session can parse if and only if no item
      of the list is blank. */
  lemma ListsAgree(value: bytes)
    ensures var parsed, items := Peers(value), Items(value, 0);
            (parsed.Some? ==> Accepted(value) && |parsed.value| == |items|) &&
            (Accepted(value) ==> (parsed.Some? <==> NoBlankItem(items)))
  {
    var items := Items(value, 0);
    MapAllIff(ItemEndpoint, items);
    WrittenAll(Parses, items);
    forall i | 0 <= i < |items|
      ensures ItemEndpoint(items[i]).Some? <==> !AllBlank(items[i]) && Parses(Trim(items[i]))
    {
      ItemParses(items[i]);
    }
    assert items[0] == items[0];
  }

  /** a:1, is accepted and cannot be parsed. */
  lemma TrailingCommaSplits()
    ensures var value: bytes := [97, 58, 49, COMMA]; Items(value, 0) == [[97, 58, 49], []]
  {
    var value: bytes := [97, 58, 49, COMMA];
    FindByte(value, COMMA, 0);
    assert value[3] == COMMA && Find(value, [COMMA], 0) == Some(3);
    FindByte(value, COMMA, 4);
    assert value[0..3] == [97, 58, 49] && value[4..] == [];
  }

  lemma TrailingCommaFails()
    ensures var value: bytes := [97, 58, 49, COMMA]; Accepted(value) && Peers(value).None?
  {
    var value: bytes := [97, 58, 49, COMMA];
    var text: bytes := [97, 58, 49];
    TrailingCommaSplits();
    ShortEndpoint();
    assert Written([[]]) == [] && Written([text, []]) == [Trim(text)];
    assert Trim(text) == text;
    assert AllBlank([]);
    ListsAgree(value);
    assert !NoBlankItem([text, []]) by { assert AllBlank([text, []][1]); }
  }

  lemma ShortEndpoint()
    ensures Parses([97, 58, 49])
  {
    var text: bytes := [97, 58, 49];
    FindByte(text, COLON, 0);
    assert text[1] == COLON && Find(text, [COLON], 0) == Some(1);
    FindByte(text, COLON, 2);
    assert text[2..] == [49] && Decimal([49]) == 1;
  }
}
