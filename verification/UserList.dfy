/**
 The body of a WHO reply: usernames separated by ", " with a NUL at the end, and when a reader
 that cuts at the NUL and splits at ", " gets the usernames back.
 */
module UserList {
  import opened Words
  import opened HeaderLayout
  import Fips180

  const COMMA: byte := ',' as int
  const SPACE: byte := ' ' as int

  function Joined(names: seq<Bytes>): Bytes {
    if names == [] then [] else names[0] + [COMMA, SPACE] + Joined(names[1..])
  }

  lemma {:induction false} JoinedAppend(names: seq<Bytes>, name: Bytes)
    ensures Joined(names + [name]) == Joined(names) + name + [COMMA, SPACE]
    decreases names
  {
    if names == [] {
      assert names + [name] == [name] && [name][1..] == [];
    } else {
      assert (names + [name])[1..] == names[1..] + [name];
      JoinedAppend(names[1..], name);
    }
  }

  function Listing(names: seq<Bytes>): Bytes {
    Joined(names) + [0]
  }

  /** A finite set can be walked in some order. */
  lemma {:induction false} SomeOrder(names: set<Bytes>) returns (order: seq<Bytes>)
    ensures multiset(order) == multiset(names)
    decreases names
  {
    if names == {} {
      order := [];
    } else {
      var n :| n in names;
      var rest := SomeOrder(names - {n});
      order := [n] + rest;
      assert names == names - {n} + {n};
    }
  }

  /** Index of the first ", ", or the length of `s` if there is none. */
  function SeparatorAt(s: Bytes): (i: nat)
    ensures i <= |s| && (i < |s| ==> i + 2 <= |s| && s[i] == COMMA && s[i + 1] == SPACE)
  {
    if |s| < 2 then |s|
    else if s[0] == COMMA && s[1] == SPACE then 0
    else 1 + SeparatorAt(s[1..])
  }

  predicate HasSeparator(s: Bytes) {
    SeparatorAt(s) < |s|
  }

  function Split(s: Bytes): (pieces: seq<Bytes>)
    ensures pieces != []
    decreases |s|
  {
    var i := SeparatorAt(s);
    if i == |s| then [s] else [s[..i]] + Split(s[i + 2..])
  }

  ghost predicate Listable(name: Bytes) {
    0 !in name && !HasSeparator(name)
  }

  lemma {:induction false} SeparatorAfter(name: Bytes, rest: Bytes)
    requires !HasSeparator(name)
    ensures SeparatorAt(name + [COMMA, SPACE] + rest) == |name|
    decreases name
  {
    var s := name + [COMMA, SPACE] + rest;
    if name != [] {
      assert s[1..] == name[1..] + [COMMA, SPACE] + rest;
      if |name| >= 2 {
        assert s[1] == name[1];
      } else {
        assert s[1] == COMMA;
      }
      SeparatorAfter(name[1..], rest);
    }
  }

  lemma {:induction false} SplitJoined(names: seq<Bytes>)
    requires forall n | n in names :: Listable(n)
    ensures Split(Joined(names)) == names + [[]]
    ensures 0 !in Joined(names)
    decreases names
  {
    hide Split, HasSeparator;
    if names == [] {
      SplitNothing();
    } else {
      var rest := Joined(names[1..]);
      assert names[0] in names;
      SplitFirst(names[0], rest);
      SplitJoined(names[1..]);
      assert [names[0]] + (names[1..] + [[]]) == names + [[]];
    }
  }

  lemma SplitNothing()
    ensures Split([]) == [[]]
  {
  }

  lemma SplitFirst(name: Bytes, rest: Bytes)
    requires !HasSeparator(name)
    ensures Split(name + [COMMA, SPACE] + rest) == [name] + Split(rest)
  {
    var s := name + [COMMA, SPACE] + rest;
    SeparatorAfter(name, rest);
    assert s[..|name|] == name && s[|name| + 2..] == rest;
  }

  lemma {:induction false} NoSeparatorBefore(s: Bytes)
    ensures !HasSeparator(s[..SeparatorAt(s)])
    decreases s
  {
    var i := SeparatorAt(s);
    if |s| >= 2 && i > 0 {
      NoSeparatorBefore(s[1..]);
      assert s[..i][1..] == s[1..][..i - 1];
    } else {
      assert s[..i] == [] || s[..i] == s;
    }
  }

  /** Every piece is free of separators and made of bytes of the whole. */
  lemma {:induction false} PiecesAreListable(s: Bytes)
    requires 0 !in s
    ensures forall p | p in Split(s) :: Listable(p)
    decreases |s|
  {
    var i := SeparatorAt(s);
    NoSeparatorBefore(s);
    assert s[..|s|] == s;
    if i < |s| {
      PiecesAreListable(s[i + 2..]);
    }
  }

  /** The reader recovers the listed names exactly if no name contains a NUL or a ", ". */
  lemma ListingReadsBack(names: seq<Bytes>)
    ensures Split(CutAtNul(Listing(names))) == names + [[]] <==> forall n | n in names :: Listable(n)
  {
    var cut := CutAtNul(Listing(names));
    if Split(cut) == names + [[]] {
      PiecesAreListable(cut);
      forall n | n in names
        ensures Listable(n)
      {
        assert n in Split(cut);
      }
    }
    if forall n | n in names :: Listable(n) {
      SplitJoined(names);
      CutAtNulZeros(Joined(names), 1, []);
      CutAtNulWhole(Joined(names));
      assert Listing(names) == Joined(names) + Fips180.Zeros(1) + [];
    }
  }

  /** Joining the pieces again gives back what was split, with a separator at the end. */
  lemma {:induction false} JoinedSplit(s: Bytes)
    ensures Joined(Split(s)) == s + [COMMA, SPACE]
    decreases |s|
  {
    hide SeparatorAt;
    var i := SeparatorAt(s);
    if i == |s| {
      assert [s][1..] == [] && Joined([]) == [];
    } else {
      JoinedSplit(s[i + 2..]);
      assert ([s[..i]] + Split(s[i + 2..]))[1..] == Split(s[i + 2..]);
      assert s == s[..i] + [COMMA, SPACE] + s[i + 2..];
    }
  }

  /** What a client reads of the reply: as many bytes as its 16-bit length field announces. */
  function AsReceived(names: seq<Bytes>): Bytes {
    Listing(names)[..|Listing(names)| % TWO_16]
  }

  /**
   The reader recovers the users from what it receives exactly if no name contains a NUL or a ", "
   and the listing fits the length field.
   */
  lemma ReplyReadsBack(names: seq<Bytes>)
    ensures Split(CutAtNul(AsReceived(names))) == names + [[]]
       <==> |Listing(names)| < TWO_16 && forall n | n in names :: Listable(n)
  {
    var all := Listing(names);
    if |all| < TWO_16 {
      assert AsReceived(names) == all;
      ListingReadsBack(names);
    } else {
      var cut := CutAtNul(AsReceived(names));
      JoinedSplit(cut);
      JoinedAppend(names, []);
      assert |cut| < |Joined(names)|;
    }
  }

  /** For a table listed in any order, every registered name is recovered, and exactly once. */
  lemma EveryUserOnce(names: seq<Bytes>, users: set<Bytes>)
    requires multiset(names) == multiset(users)
    requires forall u | u in users :: Listable(u)
    requires |Listing(names)| < TWO_16
    ensures var pieces := Split(CutAtNul(AsReceived(names)));
      pieces[|pieces| - 1] == [] && multiset(pieces[..|pieces| - 1]) == multiset(users)
  {
    forall n | n in names
      ensures Listable(n)
    {
      assert n in multiset(names);
    }
    ReplyReadsBack(names);
    assert (names + [[]])[..|names|] == names;
  }
}
