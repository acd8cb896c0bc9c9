/** The encoding byte by byte: what stands where, for every kind of field, and
    what a decoded map holds. */
module CodecLayout {
  import opened Bytes
  import opened Codec

  // --- Numbers ------------------------------------------------------------

  /** The least significant byte comes first. */
  lemma {:induction false} LittleEndianByte(n: nat, width: nat, k: nat)
    requires k < width
    ensures LittleEndian(n, width)[k] == n / Pow256(k) % 256
  {
    if k > 0 {
      LittleEndianByte(n / 256, width - 1, k - 1);
      DivideTwice(n, Pow256(k - 1));
    }
  }

  lemma DivideTwice(n: nat, p: nat)
    requires p > 0
    ensures n / 256 / p == n / (256 * p)
  {
    var q, r := n / 256, n % 256;
    var h, l := q / p, q % p;
    assert n == 256 * (p * h + l) + r;
    assert n == (256 * p) * h + (256 * l + r);
    UniqueRemainder(n, 256 * p, h, 256 * l + r);
  }

  lemma TwoBytes(n: nat)
    requires n < 65536
    ensures LittleEndian(n, 2) == [n % 256, n / 256]
  {
    assert LittleEndian(n / 256, 1) == [n / 256 % 256] + LittleEndian(n / 256 / 256, 0);
  }

  /** `s` are the lower `width` bytes of `n`, the least significant first. */
  predicate Spells(s: Octets, n: nat, width: nat) {
    |s| == width && forall i: nat :: i < width ==> s[i] == n / Pow256(i) % 256
  }

  lemma SpellsOut(n: nat, width: nat)
    ensures Spells(LittleEndian(n, width), n, width)
  {
    forall i: nat | i < width
      ensures LittleEndian(n, width)[i] == n / Pow256(i) % 256
    {
      LittleEndianByte(n, width, i);
    }
  }

  /** Numbers and flags. A negative number is its two's complement. */
  lemma NumberLayout(k: Kind, v: Value)
    requires HasKind(k, v)
    ensures k.U8? ==> EncodeField(k, v) == [v.n]
    ensures k.Flag? ==> EncodeField(k, v) == [if v.b then 1 else 0]
    ensures k.I16? ==> EncodeField(k, v) == [v.n % 65536 % 256, v.n % 65536 / 256]
    ensures k.U16? ==> EncodeField(k, v) == [v.n % 256, v.n / 256]
    ensures k.U32? ==> Spells(EncodeField(k, v), v.n, 4)
    ensures k.U64? ==> Spells(EncodeField(k, v), v.n, 8)
  {
    match k
    case U8 => assert LittleEndian(v.n, 1) == [v.n % 256] + LittleEndian(v.n / 256, 0);
    case I16 => TwoBytes(v.n % 65536);
    case U16 => TwoBytes(v.n);
    case U32 => SpellsOut(v.n, 4);
    case U64 => SpellsOut(v.n, 8);
    case _ =>
  }

  // --- Strings and containers ---------------------------------------------

  /** A length or count: four bytes, and only the lower 32 bits of it. */
  lemma CountLayout(n: nat)
    ensures Spells(EncodeCount(n), n, 4)
  {
    SpellsOut(n, 4);
  }

  /** Strings, byte vectors and every container begin with that, and then what
      they hold. */
  lemma ContainerLayout(k: Kind, v: Value)
    requires HasKind(k, v)
    ensures k.Text? || k.Blob? ==> EncodeField(k, v) == EncodeCount(|v.bytes|) + v.bytes
    ensures k.Texts? ==> EncodeField(k, v) == EncodeCount(|v.items|) + EncodeItems(v.items)
    ensures k.Structs? ==> EncodeField(k, v) == EncodeCount(|v.rows|) + EncodeRows(k.schema, v.rows)
    ensures k.Blobs? ==> EncodeField(k, v) == EncodeCount(|v.pairs|) + EncodePairs(v.pairs)
  {
  }

  /** The elements of a container stand one after the other, in order, each as a
      string would. */
  lemma {:induction false} ItemsInOrder(a: seq<Octets>, s: Octets, b: seq<Octets>)
    ensures EncodeItems(a + [s] + b) == EncodeItems(a) + (EncodeCount(|s|) + s) + EncodeItems(b)
  {
    if a == [] {
      assert a + [s] + b == [s] + b;
      ItemsCons(s, b);
    } else {
      assert a + [s] + b == [a[0]] + (a[1..] + [s] + b);
      ItemsInOrder(a[1..], s, b);
      ItemsCons(a[0], a[1..] + [s] + b);
      Regroup(EncodeBytes(a[0]), EncodeItems(a[1..]), EncodeCount(|s|) + s, EncodeItems(b));
    }
  }

  lemma ItemsCons(s: Octets, rest: seq<Octets>)
    ensures EncodeItems([s] + rest) == EncodeBytes(s) + EncodeItems(rest)
  {
    assert ([s] + rest)[1..] == rest;
  }

  /** So do the pairs of a map, key before value. */
  lemma {:induction false} PairsInOrder(a: seq<Pair>, p: Pair, b: seq<Pair>)
    ensures EncodePairs(a + [p] + b)
         == EncodePairs(a) + (EncodeCount(|p.key|) + p.key + (EncodeCount(|p.val|) + p.val)) + EncodePairs(b)
  {
    if a == [] {
      assert a + [p] + b == [p] + b;
      PairsCons(p, b);
    } else {
      assert a + [p] + b == [a[0]] + (a[1..] + [p] + b);
      PairsInOrder(a[1..], p, b);
      PairsCons(a[0], a[1..] + [p] + b);
      Regroup(EncodePair(a[0]), EncodePairs(a[1..]), EncodePair(p), EncodePairs(b));
    }
  }

  lemma PairsCons(p: Pair, rest: seq<Pair>)
    ensures EncodePairs([p] + rest) == EncodePair(p) + EncodePairs(rest)
  {
    assert ([p] + rest)[1..] == rest;
  }

  /** So do structs. */
  lemma {:induction false} RowsInOrder(schema: Schema, a: seq<seq<Value>>, row: seq<Value>, b: seq<seq<Value>>)
    requires HaveSchema(schema, a) && HasSchema(schema, row) && HaveSchema(schema, b)
    ensures HaveSchema(schema, a + [row] + b)
    ensures EncodeRows(schema, a + [row] + b)
         == EncodeRows(schema, a) + EncodeStruct(schema, row) + EncodeRows(schema, b)
  {
    if a == [] {
      assert a + [row] + b == [row] + b;
      RowsCons(schema, row, b);
    } else {
      assert a + [row] + b == [a[0]] + (a[1..] + [row] + b);
      RowsInOrder(schema, a[1..], row, b);
      RowsCons(schema, a[0], a[1..] + [row] + b);
      Regroup(EncodeStruct(schema, a[0]), EncodeRows(schema, a[1..]), EncodeStruct(schema, row), EncodeRows(schema, b));
    }
  }

  lemma RowsCons(schema: Schema, row: seq<Value>, rest: seq<seq<Value>>)
    requires HasSchema(schema, row) && HaveSchema(schema, rest)
    ensures HaveSchema(schema, [row] + rest)
    ensures EncodeRows(schema, [row] + rest) == EncodeStruct(schema, row) + EncodeRows(schema, rest)
  {
    assert ([row] + rest)[1..] == rest;
  }

  lemma Regroup(a: Octets, b: Octets, c: Octets, d: Octets)
    ensures a + (b + c + d) == (a + b) + c + d
  {
  }

  /** And the fields of a struct, in the order of its schema. */
  lemma {:induction false} FieldsInOrder(a: Schema, va: seq<Value>, b: Schema, vb: seq<Value>)
    requires HasSchema(a, va) && HasSchema(b, vb)
    ensures HasSchema(a + b, va + vb)
    ensures EncodeStruct(a + b, va + vb) == EncodeStruct(a, va) + EncodeStruct(b, vb)
    decreases |a|
  {
    if a == [] {
      assert a + b == b && va + vb == vb;
    } else {
      assert a + b == [a[0]] + (a[1..] + b) && va + vb == [va[0]] + (va[1..] + vb);
      FieldsInOrder(a[1..], va[1..], b, vb);
      FieldsCons(a[0], va[0], a[1..] + b, va[1..] + vb);
      Regroup(EncodeField(a[0], va[0]), EncodeStruct(a[1..], va[1..]), EncodeStruct(b, vb), []);
    }
  }

  lemma FieldsCons(k: Kind, v: Value, schema: Schema, vs: seq<Value>)
    requires HasKind(k, v) && HasSchema(schema, vs)
    ensures HasSchema([k] + schema, [v] + vs)
    ensures EncodeStruct([k] + schema, [v] + vs) == EncodeField(k, v) + EncodeStruct(schema, vs)
  {
    assert ([k] + schema)[1..] == schema && ([v] + vs)[1..] == vs;
  }

  // --- Maps ---------------------------------------------------------------

  /** Keys are ordered by the first byte in which they differ; a proper prefix
      comes first. */
  lemma {:induction false} LessIff(a: Octets, b: Octets)
    ensures Less(a, b)
       <==> exists k: nat :: k <= |a| && k < |b| && a[..k] == b[..k] && (k == |a| || a[k] < b[k])
  {
    if a != [] && b != [] && a[0] == b[0] {
      LessIff(a[1..], b[1..]);
      if Less(a, b) {
        var k: nat :| k <= |a[1..]| && k < |b[1..]| && a[1..][..k] == b[1..][..k]
                   && (k == |a[1..]| || a[1..][k] < b[1..][k]);
        assert a[..k + 1] == [a[0]] + a[1..][..k] && b[..k + 1] == [b[0]] + b[1..][..k];
      }
      if k: nat :| k <= |a| && k < |b| && a[..k] == b[..k] && (k == |a| || a[k] < b[k]) {
        assert k > 0;
        assert a[1..][..k - 1] == a[..k][1..] && b[1..][..k - 1] == b[..k][1..];
      }
    } else {
      if Less(a, b) {
        assert a[..0] == b[..0];
      }
      if k: nat :| k <= |a| && k < |b| && a[..k] == b[..k] && (k == |a| || a[k] < b[k]) {
        SamePrefix(a, b, k);
      }
    }
  }

  lemma SamePrefix(a: Octets, b: Octets, k: nat)
    requires k <= |a| && k <= |b| && a[..k] == b[..k]
    ensures k > 0 ==> a[0] == b[0]
  {
    assert forall i :: 0 <= i < k ==> a[i] == a[..k][i] && b[i] == b[..k][i];
  }

  lemma {:induction false} LessTotal(a: Octets, b: Octets)
    ensures a == b || Less(a, b) || Less(b, a)
  {
    if a != [] && b != [] && a[0] == b[0] {
      LessTotal(a[1..], b[1..]);
      assert a == [a[0]] + a[1..] && b == [b[0]] + b[1..];
    }
  }

  lemma {:induction false} LessTransitive(a: Octets, b: Octets, c: Octets)
    requires Less(a, b) && Less(b, c)
    ensures Less(a, c)
  {
    if a != [] && a[0] == b[0] && b[0] == c[0] {
      LessTransitive(a[1..], b[1..], c[1..]);
    }
  }

  /** `key` is bound to `val`. */
  ghost predicate Binds(m: seq<Pair>, key: Octets, val: Octets) {
    Pair(key, val) in m
  }

  /** Assignment to an ordered map: the key is bound to the value and to nothing
      else, every other binding is what it was, and the map is in order. */
  lemma {:induction false} PutAssigns(m: seq<Pair>, p: Pair)
    requires Ordered(m)
    ensures Ordered(Put(m, p))
    ensures forall key, val ::
              Binds(Put(m, p), key, val) <==> if key == p.key then val == p.val else Binds(m, key, val)
  {
    var r := Put(m, p);
    if m != [] {
      var first, rest := m[0], m[1..];
      assert m == [first] + rest;
      FirstIsLeast(m);
      if first.key == p.key {
        PutInFront(rest, p, m);
      } else if Less(p.key, first.key) {
        forall x | x in m
          ensures Less(p.key, x.key)
        {
          if x != first {
            assert x in rest;
            LessTransitive(p.key, first.key, x.key);
          }
        }
        NotLessSelf(p.key);
        OrderedCons(p, m);
      } else {
        LessTotal(p.key, first.key);
        PutAssigns(rest, p);
        forall x | x in Put(rest, p)
          ensures Less(first.key, x.key)
        {
          assert Binds(Put(rest, p), x.key, x.val) && x == Pair(x.key, x.val);
        }
        OrderedCons(first, Put(rest, p));
        forall key, val
          ensures Binds(r, key, val) <==> Pair(key, val) == first || Binds(Put(rest, p), key, val)
          ensures Binds(m, key, val) <==> Pair(key, val) == first || Binds(rest, key, val)
        {
          assert r == [first] + Put(rest, p);
        }
      }
    }
  }

  lemma PutInFront(rest: seq<Pair>, p: Pair, m: seq<Pair>)
    requires m != [] && m[1..] == rest && m[0].key == p.key && Ordered(m)
    requires forall x :: x in rest ==> Less(m[0].key, x.key)
    ensures Ordered([p] + rest)
    ensures forall key, val ::
              Binds([p] + rest, key, val) <==> if key == p.key then val == p.val else Binds(m, key, val)
  {
    assert m == [m[0]] + rest;
    NotLessSelf(p.key);
    assert Ordered(rest) by {
      assert forall i :: 0 <= i < |rest| ==> rest[i] == m[i + 1];
    }
    OrderedCons(p, rest);
  }

  lemma {:induction false} NotLessSelf(a: Octets)
    ensures !Less(a, a)
  {
    if a != [] {
      NotLessSelf(a[1..]);
    }
  }

  lemma FirstIsLeast(m: seq<Pair>)
    requires Ordered(m) && m != []
    ensures Ordered(m[1..]) && forall x :: x in m[1..] ==> Less(m[0].key, x.key)
  {
    forall x | x in m[1..]
      ensures Less(m[0].key, x.key)
    {
      var i :| 0 <= i < |m[1..]| && m[1..][i] == x;
      assert m[i + 1] == x;
    }
  }

  lemma OrderedCons(p: Pair, rest: seq<Pair>)
    requires Ordered(rest) && forall x :: x in rest ==> Less(p.key, x.key)
    ensures Ordered([p] + rest)
  {
    var all := [p] + rest;
    forall i, j | 0 <= i < j < |all|
      ensures Less(all[i].key, all[j].key)
    {
      assert all[j] == rest[j - 1] && rest[j - 1] in rest;
      if i > 0 {
        assert all[i] == rest[i - 1];
      }
    }
  }

  /** So a decoded map is in order and binds every key to the last value that
      stood under it. */
  lemma {:induction false} LastWins(m: seq<Pair>, pairs: seq<Pair>)
    requires Ordered(m)
    ensures Ordered(PutAll(m, pairs))
    ensures forall key, val :: Binds(PutAll(m, pairs), key, val) <==>
              || (Bound(pairs, key) && val == LastValue(pairs, key))
              || (!Bound(pairs, key) && Binds(m, key, val))
    decreases |pairs|
  {
    if pairs != [] {
      PutAssigns(m, pairs[0]);
      LastWins(Put(m, pairs[0]), pairs[1..]);
    }
  }

  predicate Bound(pairs: seq<Pair>, key: Octets) {
    pairs != [] && (pairs[0].key == key || Bound(pairs[1..], key))
  }

  function LastValue(pairs: seq<Pair>, key: Octets): Octets
    requires Bound(pairs, key)
  {
    if Bound(pairs[1..], key) then LastValue(pairs[1..], key) else pairs[0].val
  }
}
