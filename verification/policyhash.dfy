/** The canonical hash of a policy: internal/operator/minio_policy_reconciler.go, getHash. */
module PolicyHash {
  import opened Minio
  import opened PolicyForm

  /** A digest of byte strings. */
  type Digest = string -> string

  /** Bytewise order of strings. */
  predicate LessEq(a: string, b: string) {
    a == "" || (b != "" && (a[0] < b[0] || (a[0] == b[0] && LessEq(a[1..], b[1..]))))
  }

  lemma {:induction false} LessEqTotal(a: string, b: string)
    ensures LessEq(a, b) || LessEq(b, a)
  {
    if a != "" && b != "" && a[0] == b[0] { LessEqTotal(a[1..], b[1..]); }
  }

  lemma {:induction false} LessEqAntisymmetric(a: string, b: string)
    requires LessEq(a, b) && LessEq(b, a)
    ensures a == b
  {
    if a != "" {
      LessEqAntisymmetric(a[1..], b[1..]);
      assert a == [a[0]] + a[1..] && b == [b[0]] + b[1..];
    }
  }

  lemma {:induction false} LessEqTransitive(a: string, b: string, c: string)
    requires LessEq(a, b) && LessEq(b, c)
    ensures LessEq(a, c)
  {
    if a != "" && a[0] == b[0] == c[0] { LessEqTransitive(a[1..], b[1..], c[1..]); }
  }

  predicate Ordered(s: seq<string>) {
    |s| <= 1 || (LessEq(s[0], s[1]) && Ordered(s[1..]))
  }

  function Insert(x: string, s: seq<string>): (r: seq<string>)
    ensures |r| == |s| + 1 && multiset(r) == multiset(s) + multiset{x}
  {
    if s == [] then [x]
    else if LessEq(x, s[0]) then [x] + s
    else
      assert s == [s[0]] + s[1..];
      [s[0]] + Insert(x, s[1..])
  }

  /** The strings in order. */
  function Sort(s: seq<string>): (r: seq<string>)
    ensures |r| == |s| && multiset(r) == multiset(s)
  {
    if s == [] then []
    else
      assert s == [s[0]] + s[1..];
      Insert(s[0], Sort(s[1..]))
  }

  lemma {:induction false} InsertOrdered(x: string, s: seq<string>)
    requires Ordered(s)
    ensures Ordered(Insert(x, s))
    ensures s != [] && !LessEq(x, s[0]) ==> Insert(x, s)[0] == s[0]
  {
    if s != [] {
      LessEqTotal(x, s[0]);
      if LessEq(x, s[0]) {
        assert ([x] + s)[1..] == s;
      } else {
        InsertOrdered(x, s[1..]);
        assert Insert(x, s)[1..] == Insert(x, s[1..]);
      }
    }
  }

  lemma {:induction false} SortOrdered(s: seq<string>)
    ensures Ordered(Sort(s))
  {
    if s != [] {
      SortOrdered(s[1..]);
      InsertOrdered(s[0], Sort(s[1..]));
    }
  }

  lemma {:induction false} HeadLeast(s: seq<string>, x: string)
    requires Ordered(s) && x in s
    ensures LessEq(s[0], x)
  {
    if x == s[0] {
      LessEqTotal(x, x);
    } else {
      assert x in s[1..];
      HeadLeast(s[1..], x);
      LessEqTransitive(s[0], s[1], x);
    }
  }

  lemma TailBag(s: seq<string>)
    requires s != []
    ensures multiset(s) == multiset{s[0]} + multiset(s[1..]) && s[0] in multiset(s)
  {
    assert s == [s[0]] + s[1..];
  }

  /** There is only one way to put given strings in order. */
  lemma {:induction false} OrderUnique(s: seq<string>, t: seq<string>)
    requires Ordered(s) && Ordered(t) && multiset(s) == multiset(t)
    ensures s == t
  {
    if t != [] { TailBag(t); }
    if s != [] {
      TailBag(s);
      assert s[0] in t && t[0] in s;
      HeadLeast(s, t[0]);
      HeadLeast(t, s[0]);
      LessEqAntisymmetric(s[0], t[0]);
      assert multiset(s[1..]) == multiset(s) - multiset{s[0]} && multiset(t[1..]) == multiset(t) - multiset{t[0]};
      assert Ordered(s[1..]) && Ordered(t[1..]);
      OrderUnique(s[1..], t[1..]);
      assert s == [s[0]] + s[1..] && t == [t[0]] + t[1..];
    }
  }

  /** Sorting tells collections apart, and nothing else. */
  lemma SortCanonical(s: seq<string>, t: seq<string>)
    ensures Sort(s) == Sort(t) <==> multiset(s) == multiset(t)
  {
    SortOrdered(s);
    SortOrdered(t);
    if multiset(s) == multiset(t) { OrderUnique(Sort(s), Sort(t)); }
  }

  function Join(s: seq<string>, separator: char): string {
    if s == [] then "" else if |s| == 1 then s[0] else s[0] + [separator] + Join(s[1..], separator)
  }

  /** A text splits in only one way at the first separator. */
  lemma SplitUnique(a: string, b: string, x: string, y: string, separator: char)
    requires separator !in a && separator !in b && a + [separator] + x == b + [separator] + y
    ensures a == b && x == y
  {
    var s, t := a + [separator] + x, b + [separator] + y;
    assert s[|a|] == separator && forall i | 0 <= i < |a| :: s[i] == a[i] != separator;
    assert t[|b|] == separator && forall i | 0 <= i < |b| :: t[i] == b[i] != separator;
    assert s[..|a|] == a && t[..|b|] == b;
    assert s[|a| + 1..] == x && t[|b| + 1..] == y;
  }

  lemma {:induction false} JoinLacks(s: seq<string>, separator: char, c: char)
    requires c != separator && forall x | x in s :: c !in x
    ensures c !in Join(s, separator)
  {
    if |s| > 1 { JoinLacks(s[1..], separator, c); }
  }

  /** Joined words without the separator can be told apart. */
  lemma {:induction false} JoinInjective(s: seq<string>, t: seq<string>, separator: char)
    requires forall x | x in s :: x != "" && separator !in x
    requires forall x | x in t :: x != "" && separator !in x
    requires Join(s, separator) == Join(t, separator)
    ensures s == t
  {
    assert |s| > 1 ==> separator in Join(s, separator);
    assert |t| > 1 ==> separator in Join(t, separator);
    assert |s| == 1 ==> s[0] in s && separator !in Join(s, separator);
    assert |t| == 1 ==> t[0] in t && separator !in Join(t, separator);
    if |s| > 1 && |t| > 1 {
      SplitUnique(s[0], t[0], Join(s[1..], separator), Join(t[1..], separator), separator);
      assert forall x | x in s[1..] :: x in s;
      assert forall x | x in t[1..] :: x in t;
      JoinInjective(s[1..], t[1..], separator);
      assert s == [s[0]] + s[1..] && t == [t[0]] + t[1..];
    }
  }

  /** So can joined words of one width, whatever they contain. */
  lemma {:induction false} JoinFixedInjective(s: seq<string>, t: seq<string>, separator: char, width: nat)
    requires width > 0 && (forall x | x in s :: |x| == width) && (forall x | x in t :: |x| == width)
    requires Join(s, separator) == Join(t, separator)
    ensures s == t
  {
    assert |s| > 1 ==> |Join(s, separator)| > width;
    assert |t| > 1 ==> |Join(t, separator)| > width;
    if |s| > 1 && |t| > 1 {
      var a, b := Join(s, separator), Join(t, separator);
      assert a[..width] == s[0] && b[..width] == t[0];
      assert a[width + 1..] == Join(s[1..], separator) && b[width + 1..] == Join(t[1..], separator);
      JoinFixedInjective(s[1..], t[1..], separator, width);
      assert s == [s[0]] + s[1..] && t == [t[0]] + t[1..];
    }
  }

  /** What is hashed of a statement. */
  function StatementPreimage(s: Statement): string {
    Join([Join(Sort(s.action), ','), s.effect, Join(Sort(s.resource), ',')], '|')
  }

  function Digests(digest: Digest, statements: seq<Statement>): (r: seq<string>)
    ensures |r| == |statements|
  {
    if statements == [] then [] else [digest(StatementPreimage(statements[0]))] + Digests(digest, statements[1..])
  }

  /** What is hashed of a document: its version and the digests of its statements. */
  function DocPreimage(digest: Digest, d: Doc): string {
    Join([d.version, Join(Sort(Digests(digest, d.statement)), ',')], '|')
  }

  /** The policies are the same to the reconcilers, which compare hashes. */
  predicate SameHash(digest: Digest, d: Doc, e: Doc) {
    digest(DocPreimage(digest, d)) == digest(DocPreimage(digest, e))
  }

  method GetStatementHash(digest: Digest, s: Statement) returns (h: string)
    ensures h == digest(StatementPreimage(s))
  {
    hide Sort, Join;
    var d, a: seq<string> := [], [];
    a := a + s.action;
    a := Sort(a);
    d := d + [Join(a, ',')];
    d := d + [s.effect];
    a := [];
    a := a + s.resource;
    a := Sort(a);
    d := d + [Join(a, ',')];
    assert [] + s.action == s.action && [] + s.resource == s.resource;
    assert d == [Join(Sort(s.action), ','), s.effect, Join(Sort(s.resource), ',')];
    h := digest(Join(d, '|'));
  }

  method GetHash(digest: Digest, doc: Doc) returns (h: string)
    ensures h == digest(DocPreimage(digest, doc))
  {
    hide Sort, Join, StatementPreimage;
    var d, a: seq<string> := [], [];
    d := d + [doc.version];
    for i := 0 to |doc.statement|
      invariant a + Digests(digest, doc.statement[i..]) == Digests(digest, doc.statement)
    {
      var x := GetStatementHash(digest, doc.statement[i]);
      a := a + [x];
      assert doc.statement[i..][1..] == doc.statement[i + 1..];
    }
    assert a == Digests(digest, doc.statement);
    a := Sort(a);
    d := d + [Join(a, ',')];
    assert d == [doc.version, Join(Sort(Digests(digest, doc.statement)), ',')];
    h := digest(Join(d, '|'));
  }

  /** The images of a collection under `f`. */
  function Bag<A, B>(s: seq<A>, f: A -> B): multiset<B> {
    if s == [] then multiset{} else multiset{f(s[0])} + Bag(s[1..], f)
  }

  lemma {:induction false} BagHas<A, B>(s: seq<A>, f: A -> B, b: B) returns (i: nat)
    requires b in Bag(s, f)
    ensures i < |s| && f(s[i]) == b
  {
    if f(s[0]) == b {
      i := 0;
    } else {
      i := BagHas(s[1..], f, b);
      i := i + 1;
    }
  }

  function Without<A>(s: seq<A>, i: nat): seq<A>
    requires i < |s|
  {
    s[..i] + s[i + 1..]
  }

  lemma BagCons<A, B>(x: A, s: seq<A>, f: A -> B)
    ensures Bag([x] + s, f) == multiset{f(x)} + Bag(s, f)
  {
    assert ([x] + s)[1..] == s;
  }

  lemma {:induction false} BagWithout<A, B>(s: seq<A>, f: A -> B, i: nat)
    requires i < |s|
    ensures Bag(s, f) == Bag(Without(s, i), f) + multiset{f(s[i])}
  {
    assert s == [s[0]] + s[1..];
    BagCons(s[0], s[1..], f);
    hide Bag;
    if i == 0 {
      assert Without(s, 0) == s[1..];
    } else {
      var rest := Without(s[1..], i - 1);
      BagWithout(s[1..], f, i - 1);
      assert s[1..][i - 1] == s[i];
      assert Without(s, i) == [s[0]] + rest;
      BagCons(s[0], rest, f);
    }
  }

  lemma PeeledTellApart<A, B, C>(s: seq<A>, t: seq<A>, f: A -> B, g: A -> C, i: nat)
    requires s != [] && i < |t| && forall x, y | x in s && y in t && f(x) == f(y) :: g(x) == g(y)
    ensures forall x, y | x in s[1..] && y in Without(t, i) && f(x) == f(y) :: g(x) == g(y)
  {
    assert forall x | x in s[1..] :: x in s;
    assert forall y | y in Without(t, i) :: y in t;
  }

  lemma BagHead<A, B>(s: seq<A>, f: A -> B)
    ensures s != [] ==> f(s[0]) in Bag(s, f)
  {
  }

  lemma TakeAway<B>(p: multiset<B>, q: multiset<B>, b: B)
    ensures p + multiset{b} == q + multiset{b} <==> p == q
  {
    assert p + multiset{b} - multiset{b} == p;
    assert q + multiset{b} - multiset{b} == q;
  }

  lemma Peel<A, B>(s: seq<A>, t: seq<A>, f: A -> B, i: nat)
    requires s != [] && i < |t| && f(s[0]) == f(t[i])
    ensures Bag(s, f) == Bag(t, f) <==> Bag(s[1..], f) == Bag(Without(t, i), f)
  {
    BagWithout(t, f, i);
    BagWithout(s, f, 0);
    hide Bag;
    assert Without(s, 0) == s[1..];
    TakeAway(Bag(s[1..], f), Bag(Without(t, i), f), f(s[0]));
  }

  /** Collections with the same images under `f` have the same under `g`, where `g` tells apart no more than `f`. */
  lemma {:induction false} BagsAgree<A, B, C>(s: seq<A>, t: seq<A>, f: A -> B, g: A -> C)
    requires forall x, y | x in s && y in t && f(x) == f(y) :: g(x) == g(y)
    requires Bag(s, f) == Bag(t, f)
    ensures Bag(s, g) == Bag(t, g)
    decreases |s|
  {
    BagHead(t, f);
    BagHead(s, f);
    if s != [] {
      var i := BagHas(t, f, f(s[0]));
      hide Bag;
      assert s[0] in s && t[i] in t;
      Peel(s, t, f, i);
      Peel(s, t, g, i);
      PeeledTellApart(s, t, f, g, i);
      BagsAgree(s[1..], Without(t, i), f, g);
    }
  }

  lemma {:induction false} FormsBag(statements: seq<Statement>)
    ensures Forms(statements) == Bag(statements, FormOf)
  {
    if statements != [] { FormsBag(statements[1..]); }
  }

  lemma {:induction false} DigestsBag(digest: Digest, statements: seq<Statement>)
    ensures multiset(Digests(digest, statements)) == Bag(statements, (s: Statement) => digest(StatementPreimage(s)))
  {
    hide StatementPreimage;
    if statements != [] { DigestsBag(digest, statements[1..]); }
  }

  /** No separator in a word, and words are not empty. */
  predicate PlainWord(word: string) {
    word != "" && ',' !in word && '|' !in word
  }

  predicate PlainStatement(s: Statement) {
    PlainWord(s.effect) && (forall a | a in s.action :: PlainWord(a)) && (forall r | r in s.resource :: PlainWord(r))
  }

  predicate PlainDoc(d: Doc) {
    '|' !in d.version && forall s | s in d.statement :: PlainStatement(s)
  }

  lemma SortedPlain(words: seq<string>)
    requires forall w | w in words :: PlainWord(w)
    ensures forall w | w in Sort(words) :: PlainWord(w)
    ensures '|' !in Join(Sort(words), ',')
  {
    hide Sort, Join;
    forall w | w in Sort(words) ensures PlainWord(w) {
      assert w in multiset(Sort(words)) && w in multiset(words);
    }
    JoinLacks(Sort(words), ',', '|');
  }

  lemma TwoParts(a: string, b: string)
    ensures Join([a, b], '|') == a + ['|'] + b
  {
    assert [a, b][1..] == [b];
  }

  lemma ThreeParts(a: string, b: string, c: string)
    ensures Join([a, b, c], '|') == a + ['|'] + (b + ['|'] + c)
  {
    assert [a, b, c][1..] == [b, c];
    TwoParts(b, c);
  }

  lemma StatementPreimageSplits(s: Statement, t: Statement)
    requires PlainStatement(s) && PlainStatement(t) && StatementPreimage(s) == StatementPreimage(t)
    ensures Sort(s.action) == Sort(t.action) && s.effect == t.effect && Sort(s.resource) == Sort(t.resource)
  {
    hide Sort;
    var sa, sr, ta, tr := Join(Sort(s.action), ','), Join(Sort(s.resource), ','),
        Join(Sort(t.action), ','), Join(Sort(t.resource), ',');
    SortedPlain(s.action);
    SortedPlain(s.resource);
    SortedPlain(t.action);
    SortedPlain(t.resource);
    ThreeParts(sa, s.effect, sr);
    ThreeParts(ta, t.effect, tr);
    hide Join;
    SplitUnique(sa, ta, s.effect + "|" + sr, t.effect + "|" + tr, '|');
    SplitUnique(s.effect, t.effect, sr, tr, '|');
    JoinInjective(Sort(s.action), Sort(t.action), ',');
    JoinInjective(Sort(s.resource), Sort(t.resource), ',');
  }

  /** Two statements have the same preimage exactly when they agree up to the order of actions and resources. */
  lemma StatementPreimageCanonical(s: Statement, t: Statement)
    requires PlainStatement(s) && PlainStatement(t)
    ensures StatementPreimage(s) == StatementPreimage(t) <==> FormOf(s) == FormOf(t)
  {
    hide Sort, Join, PlainWord;
    SortCanonical(s.action, t.action);
    SortCanonical(s.resource, t.resource);
    if StatementPreimage(s) == StatementPreimage(t) {
      StatementPreimageSplits(s, t);
    }
  }

  /** The digest tells apart the preimages at hand, where they differ; its values are 32 bytes long. */
  ghost predicate NoCollision(digest: Digest, d: Doc, e: Doc) {
    && (forall x :: |digest(x)| == 32)
    && (forall s, t | s in d.statement && t in e.statement &&
        digest(StatementPreimage(s)) == digest(StatementPreimage(t)) ::
          StatementPreimage(s) == StatementPreimage(t))
    && (digest(DocPreimage(digest, d)) == digest(DocPreimage(digest, e)) ==>
        DocPreimage(digest, d) == DocPreimage(digest, e))
  }

  lemma {:induction false} DigestsWidth(digest: Digest, statements: seq<Statement>)
    requires forall x :: |digest(x)| == 32
    ensures forall x | x in Digests(digest, statements) :: |x| == 32
  {
    hide StatementPreimage;
    if statements != [] { DigestsWidth(digest, statements[1..]); }
  }

  lemma DigestWidth(digest: Digest, statements: seq<Statement>)
    requires forall x :: |digest(x)| == 32
    ensures forall x | x in Sort(Digests(digest, statements)) :: |x| == 32
  {
    hide Sort, StatementPreimage;
    var a := Digests(digest, statements);
    DigestsWidth(digest, statements);
    forall x | x in Sort(a) ensures |x| == 32 {
      assert x in multiset(Sort(a)) && x in multiset(a);
    }
  }

  lemma DocPreimageSplits(digest: Digest, d: Doc, e: Doc)
    requires '|' !in d.version && '|' !in e.version && (forall x :: |digest(x)| == 32)
    requires DocPreimage(digest, d) == DocPreimage(digest, e)
    ensures d.version == e.version && multiset(Digests(digest, d.statement)) == multiset(Digests(digest, e.statement))
  {
    hide Sort;
    var a, b := Digests(digest, d.statement), Digests(digest, e.statement);
    TwoParts(d.version, Join(Sort(a), ','));
    TwoParts(e.version, Join(Sort(b), ','));
    hide Join;
    SplitUnique(d.version, e.version, Join(Sort(a), ','), Join(Sort(b), ','), '|');
    DigestWidth(digest, d.statement);
    DigestWidth(digest, e.statement);
    JoinFixedInjective(Sort(a), Sort(b), ',', 32);
    SortCanonical(a, b);
  }

  lemma DocPreimageJoins(digest: Digest, d: Doc, e: Doc)
    requires d.version == e.version && multiset(Digests(digest, d.statement)) == multiset(Digests(digest, e.statement))
    ensures DocPreimage(digest, d) == DocPreimage(digest, e)
  {
    hide Sort, Join;
    SortCanonical(Digests(digest, d.statement), Digests(digest, e.statement));
  }

  /** Statements hashed alike have the same forms. */
  lemma HashedAlike(digest: Digest, s: seq<Statement>, t: seq<Statement>)
    requires (forall x | x in s :: PlainStatement(x)) && (forall x | x in t :: PlainStatement(x))
    requires forall x, y | x in s && y in t && digest(StatementPreimage(x)) == digest(StatementPreimage(y)) ::
        StatementPreimage(x) == StatementPreimage(y)
    requires multiset(Digests(digest, s)) == multiset(Digests(digest, t))
    ensures Forms(s) == Forms(t)
  {
    hide StatementPreimage, FormOf, PlainStatement, Bag;
    var f := (x: Statement) => digest(StatementPreimage(x));
    DigestsBag(digest, s);
    DigestsBag(digest, t);
    FormsBag(s);
    FormsBag(t);
    forall x, y | x in s && y in t && f(x) == f(y) ensures FormOf(x) == FormOf(y) {
      StatementPreimageCanonical(x, y);
    }
    BagsAgree(s, t, f, FormOf);
  }

  /** Statements of the same forms are hashed alike. */
  lemma FormedAlike(digest: Digest, s: seq<Statement>, t: seq<Statement>)
    requires (forall x | x in s :: PlainStatement(x)) && (forall x | x in t :: PlainStatement(x))
    requires Forms(s) == Forms(t)
    ensures multiset(Digests(digest, s)) == multiset(Digests(digest, t))
  {
    hide StatementPreimage, FormOf, PlainStatement, Bag;
    var f := (x: Statement) => digest(StatementPreimage(x));
    DigestsBag(digest, s);
    DigestsBag(digest, t);
    FormsBag(s);
    FormsBag(t);
    forall x, y | x in s && y in t && FormOf(x) == FormOf(y) ensures f(x) == f(y) {
      StatementPreimageCanonical(x, y);
    }
    BagsAgree(s, t, FormOf, f);
  }

  /** Two policies have the same hash exactly when they agree up to the order of statements, actions and resources. */
  lemma HashCanonical(digest: Digest, d: Doc, e: Doc)
    requires PlainDoc(d) && PlainDoc(e) && NoCollision(digest, d, e)
    ensures SameHash(digest, d, e) <==> Equivalent(d, e)
  {
    hide Sort, Join, StatementPreimage, DocPreimage, PlainStatement, FormOf, Bag, PlainWord;
    if SameHash(digest, d, e) {
      DocPreimageSplits(digest, d, e);
      HashedAlike(digest, d.statement, e.statement);
    }
    if Equivalent(d, e) {
      FormedAlike(digest, d.statement, e.statement);
      DocPreimageJoins(digest, d, e);
    }
  }

  lemma JoinTwo(x: string, y: string)
    ensures Join([x, y], '|') == x + "|" + y
  {
    assert [x, y][1..] == [y];
  }

  lemma JoinThree(x: string, y: string, z: string)
    ensures Join([x, y, z], '|') == x + "|" + y + "|" + z
  {
    assert [x, y, z][1..] == [y, z];
    JoinTwo(y, z);
  }

  lemma OfTwo(x: string, y: string)
    requires LessEq(x, y)
    ensures Join(Sort([x, y]), ',') == x + [','] + y
  {
    hide LessEq;
    assert [x, y][1..] == [y] && [y][1..] == [];
    assert Sort([x, y]) == [x, y];
  }

  lemma OfOne(x: string)
    ensures Join(Sort([x]), ',') == x && Join(Sort([]), ',') == ""
  {
    assert Sort([x]) == [x];
  }

  lemma Swapped(x: string, y: string)
    requires LessEq(x, y)
    ensures Sort([y, x]) == Sort([x, y])
  {
    hide LessEq, Sort;
    assert multiset([y, x]) == multiset([x, y]);
    SortCanonical([y, x], [x, y]);
  }

  /** What is hashed of a policy with one statement, written out: words in order, then commas, then bars. */
  lemma PreimageOfOne(digest: Digest, version: string, a: string, b: string, effect: string, resource: string)
    requires LessEq(a, b)
    ensures
      DocPreimage(digest, Doc(version, [Statement([b, a], effect, [resource])])) ==
      version + "|" + digest(a + "," + b + "|" + effect + "|" + resource)
  {
    hide LessEq, Sort;
    var s := Statement([b, a], effect, [resource]);
    Swapped(a, b);
    OfTwo(a, b);
    OfOne(resource);
    JoinThree(a + [','] + b, effect, resource);
    assert StatementPreimage(s) == a + "," + b + "|" + effect + "|" + resource;
    OfOne(digest(StatementPreimage(s)));
    assert Digests(digest, [s]) == [digest(StatementPreimage(s))];
    JoinTwo(version, digest(StatementPreimage(s)));
  }

  lemma ConfusedBy(digest: Digest, a: seq<string>, b: seq<string>)
    requires Join(Sort(a), ',') == Join(Sort(b), ',') && |a| != |b|
    ensures
      var d := Doc("v", [Statement(a, "Allow", ["r"])]);
      var e := Doc("v", [Statement(b, "Allow", ["r"])]);
      DocPreimage(digest, d) == DocPreimage(digest, e) && !Equivalent(d, e)
  {
    hide Sort, Join;
    var s, t := Statement(a, "Allow", ["r"]), Statement(b, "Allow", ["r"]);
    assert StatementPreimage(s) == StatementPreimage(t);
    assert Digests(digest, [s]) == [digest(StatementPreimage(s))] &&
        Digests(digest, [t]) == [digest(StatementPreimage(t))];
    assert |multiset(a)| != |multiset(b)|;
    assert Forms([s]) == multiset{FormOf(s)} && Forms([t]) == multiset{FormOf(t)};
    assert FormOf(s) in Forms([s]) && FormOf(s) !in Forms([t]);
  }

  /** A comma inside an action, or an empty one, makes different policies hash alike, whatever the digest. */
  lemma SeparatorsConfuse(digest: Digest)
    ensures
      var d := Doc("v", [Statement(["a,b"], "Allow", ["r"])]);
      var e := Doc("v", [Statement(["a", "b"], "Allow", ["r"])]);
      DocPreimage(digest, d) == DocPreimage(digest, e) && !Equivalent(d, e)
    ensures
      var d := Doc("v", [Statement([""], "Allow", ["r"])]);
      var e := Doc("v", [Statement([], "Allow", ["r"])]);
      DocPreimage(digest, d) == DocPreimage(digest, e) && !Equivalent(d, e)
  {
    hide Sort, Join, Forms, StatementPreimage, DocPreimage;
    assert LessEq("a", "b");
    OfTwo("a", "b");
    OfOne("a,b");
    OfOne("");
    assert "a" + [','] + "b" == "a,b";
    ConfusedBy(digest, ["a,b"], ["a", "b"]);
    ConfusedBy(digest, [""], []);
  }
}
