/** The string under which a read in flight is shared: its type, the revision it captured and its
    encoded content. */
module FlightKeys {
  import opened Projection

  function Digit(d: nat): char
    requires d < 10
  {
    "0123456789"[d]
  }

  function Decimal(n: nat): (r: string)
    ensures r != []
    ensures forall c :: c in r ==> c in "0123456789"
  {
    if n < 10 then [Digit(n)] else Decimal(n / 10) + [Digit(n % 10)]
  }

  function TypeName(request: Request): string {
    match request
    case GetCommunities => "*communities.GetCommunities"
    case GetChannels(_) => "*communities.GetChannels"
    case GetMembers(_, _) => "*communities.GetMembers"
    case GetRoles(_) => "*communities.GetRoles"
    case OtherRead(read, _) => ReadName(read)
    case _ => ""
  }

  function ReadName(read: ReadKind): string {
    match read
    case GetChannelMembers => "*communities.GetChannelMembers"
    case GetChat => "*chats.GetChat"
    case GetChats => "*chats.GetChats"
    case GetChatMembers => "*chats.GetChatMembers"
    case GetHistory => "*messages.GetHistory"
    case Search => "*messages.Search"
    case GetPinnedMessages => "*messages.GetPinnedMessages"
    case LookupUsername => "*users.LookupUsername"
    case GetProfile => "*users.GetProfile"
  }

  function FlightKey(typeName: string, revision: nat, data: string): string {
    typeName + ":" + Decimal(revision) + ":" + data
  }

  lemma {:induction false} DecimalInjective(m: nat, n: nat)
    requires Decimal(m) == Decimal(n)
    ensures m == n
  {
    var a, b := Decimal(m), Decimal(n);
    assert a[|a| - 1] == Digit(m % 10) && b[|b| - 1] == Digit(n % 10);
    assert m % 10 == n % 10;
    if m >= 10 && n >= 10 {
      assert a[..|a| - 1] == Decimal(m / 10) && b[..|b| - 1] == Decimal(n / 10);
      DecimalInjective(m / 10, n / 10);
    }
  }

  /** The numbers of a repeated field, each ended by a comma. */
  function Numbers(xs: seq<nat>): (r: string)
    ensures r == "" <==> xs == []
  {
    if xs == [] then "" else Decimal(xs[0]) + "," + Numbers(xs[1..])
  }

  /** A read's fields, encoded. */
  function Encode(request: Request): string {
    match request
    case GetChannels(community) => Decimal(community)
    case GetMembers(community, ids) => Numbers([community] + ids)
    case GetRoles(community) => Decimal(community)
    case OtherRead(_, fields) => fields
    case _ => ""
  }

  /** Text up to the first separator, and the text after it, are determined. */
  lemma FirstSplits(separator: char, a: string, b: string, c: string, d: string)
    requires separator !in a && separator !in c && a + [separator] + b == c + [separator] + d
    ensures a == c && b == d
  {
    var s := a + [separator] + b;
    assert s[|a|] == separator && s[|c|] == separator;
    assert forall i :: 0 <= i < |a| ==> s[i] == a[i] && a[i] != separator;
    assert forall i :: 0 <= i < |c| ==> s[i] == c[i] && c[i] != separator;
    assert |a| == |c|;
    assert a == s[..|a|] && c == s[..|c|];
    assert b == s[|a| + 1..] && d == s[|c| + 1..];
  }

  lemma {:induction false} DigitsOnly(n: nat)
    ensures ':' !in Decimal(n) && ',' !in Decimal(n)
  {
    if n >= 10 { DigitsOnly(n / 10); }
  }

  /** A number and the text after it are determined. */
  lemma NumberThenText(separator: char, m: nat, x: string, n: nat, y: string)
    requires separator == ':' || separator == ','
    requires Decimal(m) + [separator] + x == Decimal(n) + [separator] + y
    ensures m == n && x == y
  {
    DigitsOnly(m);
    DigitsOnly(n);
    FirstSplits(separator, Decimal(m), x, Decimal(n), y);
    DecimalInjective(m, n);
  }

  lemma {:induction false} NumbersInjective(xs: seq<nat>, ys: seq<nat>)
    requires Numbers(xs) == Numbers(ys)
    ensures xs == ys
  {
    if xs != [] && ys != [] {
      NumberThenText(',', xs[0], Numbers(xs[1..]), ys[0], Numbers(ys[1..]));
      NumbersInjective(xs[1..], ys[1..]);
      assert xs == [xs[0]] + xs[1..] && ys == [ys[0]] + ys[1..];
    }
  }

  lemma NoColonInReads(read: ReadKind)
    ensures ':' !in ReadName(read)
  {
  }

  lemma NoColon(request: Request)
    ensures ':' !in TypeName(request)
  {
    if request.OtherRead? { NoColonInReads(request.read); }
  }

  /** Flights are shared only by reads of one type, one captured revision and one content. */
  lemma FlightKeyInjective(p: Request, m: nat, x: string, q: Request, n: nat, y: string)
    requires FlightKey(TypeName(p), m, x) == FlightKey(TypeName(q), n, y)
    ensures TypeName(p) == TypeName(q) && m == n && x == y
  {
    NoColon(p);
    NoColon(q);
    SplitKeys(TypeName(p), m, x, TypeName(q), n, y);
  }

  lemma SplitKeys(a: string, m: nat, x: string, b: string, n: nat, y: string)
    requires ':' !in a && ':' !in b && FlightKey(a, m, x) == FlightKey(b, n, y)
    ensures a == b && m == n && x == y
  {
    var u, v := Decimal(m) + ":" + x, Decimal(n) + ":" + y;
    assert FlightKey(a, m, x) == a + ":" + u && FlightKey(b, n, y) == b + ":" + v;
    FirstSplits(':', a, u, b, v);
    NumberThenText(':', m, x, n, y);
  }

  lemma ReadNamesDiffer(p: ReadKind, q: ReadKind)
    requires ReadName(p) == ReadName(q)
    ensures p == q
  {
    var a, b := ReadName(p), ReadName(q);
    assert |a| == |b| && a[1] == b[1] && a[|a| - 1] == b[|b| - 1];
  }

  lemma TypeNamesDiffer(p: Request, q: Request)
    requires p.IsStateRead() && q.IsStateRead() && TypeName(p) == TypeName(q)
    ensures p.OtherRead? == q.OtherRead?
    ensures p.GetCommunities? == q.GetCommunities? && p.GetChannels? == q.GetChannels?
    ensures p.GetMembers? == q.GetMembers? && p.GetRoles? == q.GetRoles?
  {
    var a, b := TypeName(p), TypeName(q);
    assert |a| == |b| && a[1] == b[1] && a[|a| - 1] == b[|b| - 1];
  }

  /** Two reads under one flight key are the same request at the same revision. */
  lemma SharedReadsAreEqual(p: Request, m: nat, q: Request, n: nat)
    requires p.IsStateRead() && q.IsStateRead()
    requires FlightKey(TypeName(p), m, Encode(p)) == FlightKey(TypeName(q), n, Encode(q))
    ensures p == q && m == n
  {
    FlightKeyInjective(p, m, Encode(p), q, n, Encode(q));
    TypeNamesDiffer(p, q);
    match p
    case GetChannels(community) => DecimalInjective(community, q.community);
    case GetRoles(community) => DecimalInjective(community, q.community);
    case GetMembers(community, ids) =>
      var xs, ys := [community] + ids, [q.community] + q.memberIds;
      NumbersInjective(xs, ys);
      assert ids == xs[1..] && q.memberIds == ys[1..];
    case OtherRead(read, _) => ReadNamesDiffer(read, q.read);
    case _ =>
  }
}
