/**
 The tree hash of a Lambda artifact: relative names and contents, each framed by its length,
 fed to one running digest in sorted order.

 Bytes are characters below 256. The digest is an injective tag of everything that was fed.
 */
module TreeHash {
  import opened Wrappers
  import opened Sorting

  type Bytes = string

  datatype Entry = Entry(name: Bytes, data: Bytes)

  type Tree = map<string, Bytes>

  // ---------- Relative paths ----------

  // The parts of a path, without empty ones and single dots.
  function Parts(path: string, current: string): seq<string> {
    if path == "" then Part(current)
    else if path[0] == '/' then Part(current) + Parts(path[1..], "")
    else Parts(path[1..], current + [path[0]])
  }

  function Part(part: string): seq<string> {
    if part == "" || part == "." then [] else [part]
  }

  function Join(parts: seq<string>): string {
    if parts == [] then "" else if |parts| == 1 then parts[0] else parts[0] + "/" + Join(parts[1..])
  }

  predicate SafeCharacter(c: char) {
    32 as char <= c < 127 as char && c != '\\'
  }

  // The normal form of a safe relative path.
  function SafeRelativePath(path: string): Option<string> {
    var parts := Parts(path, "");
    if (exists c | c in path :: !SafeCharacter(c)) || (path != "" && path[0] == '/') || parts == [] || ".." in parts
    then None
    else Some(Join(parts))
  }

  // ---------- Framing ----------

  function Power(width: nat): nat {
    if width == 0 then 1 else 256 * Power(width - 1)
  }

  // n.to_bytes(width, "big")
  function BigEndian(n: nat, width: nat): (bytes: Bytes)
    requires n < Power(width)
    ensures |bytes| == width
    ensures ValueOf(bytes) == n
  {
    if width == 0 then ""
    else
      var front := BigEndian(n / 256, width - 1);
      var bytes := front + [(n % 256) as char];
      assert bytes[..width - 1] == front;
      bytes
  }

  function ValueOf(bytes: Bytes): nat {
    if bytes == "" then 0 else 256 * ValueOf(bytes[..|bytes| - 1]) + bytes[|bytes| - 1] as nat
  }

  const FRAME := 8
  const LIMIT := 0x1_0000_0000_0000_0000

  lemma LimitIsPower()
    ensures Power(FRAME) == LIMIT
  {
    assert Power(4) == 0x1_0000_0000;
  }

  // The length of a piece in eight bytes.
  function Frame(length: nat): (bytes: Bytes)
    requires length < LIMIT
    ensures |bytes| == FRAME && ValueOf(bytes) == length
  {
    LimitIsPower();
    BigEndian(length, FRAME)
  }

  predicate Frameable(entry: Entry) {
    |entry.name| < LIMIT && |entry.data| < LIMIT
  }

  function EncodeEntry(entry: Entry): Bytes
    requires Frameable(entry)
  {
    Frame(|entry.name|) + entry.name + Frame(|entry.data|) + entry.data
  }

  // The byte stream of a list of entries.
  function Encode(entries: seq<Entry>): Bytes
    requires forall entry | entry in entries :: Frameable(entry)
  {
    if entries == [] then "" else EncodeEntry(entries[0]) + Encode(entries[1..])
  }

  // Take one framed piece off the front.
  function TakeFrame(stream: Bytes): (r: Option<(Bytes, Bytes)>)
    ensures r.Some? ==> |r.value.1| + FRAME <= |stream|
  {
    if |stream| < FRAME then None
    else
      var length := ValueOf(stream[..FRAME]);
      if |stream| - FRAME < length then None
      else Some((stream[FRAME..FRAME + length], stream[FRAME + length..]))
  }

  // Read a stream back as entries.
  function Decode(stream: Bytes): Option<seq<Entry>>
    decreases |stream|
  {
    if stream == "" then Some([])
    else
      var name := TakeFrame(stream);
      if name.None? then None
      else
        var data := TakeFrame(name.value.1);
        if data.None? then None
        else
          var rest := Decode(data.value.1);
          if rest.None? then None else Some([Entry(name.value.0, data.value.0)] + rest.value)
  }

  lemma FrameRoundTrip(piece: Bytes, rest: Bytes)
    requires |piece| < LIMIT
    ensures TakeFrame(Frame(|piece|) + piece + rest) == Some((piece, rest))
  {
    ThreePieces(Frame(|piece|), piece, rest);
  }

  lemma ThreePieces(header: Bytes, piece: Bytes, rest: Bytes)
    ensures (header + piece + rest)[..|header|] == header
    ensures (header + piece + rest)[|header|..|header| + |piece|] == piece
    ensures (header + piece + rest)[|header| + |piece|..] == rest
  {
  }

  lemma DecodeOne(entry: Entry, rest: Bytes)
    requires Frameable(entry)
    ensures Decode(EncodeEntry(entry) + rest) ==
            if Decode(rest).None? then None else Some([entry] + Decode(rest).value)
  {
    var tail := Frame(|entry.data|) + entry.data + rest;
    assert EncodeEntry(entry) + rest == Frame(|entry.name|) + entry.name + tail;
    FrameRoundTrip(entry.name, tail);
    FrameRoundTrip(entry.data, rest);
  }

  lemma {:induction false} DecodeEncode(entries: seq<Entry>)
    requires forall entry | entry in entries :: Frameable(entry)
    ensures Decode(Encode(entries)) == Some(entries)
  {
    if entries != [] {
      DecodeEncode(entries[1..]);
      DecodeOne(entries[0], Encode(entries[1..]));
      assert entries == [entries[0]] + entries[1..];
    }
  }

  // Equal streams come from equal lists of names and contents.
  lemma EncodeIsInjective(a: seq<Entry>, b: seq<Entry>)
    requires forall entry | entry in a :: Frameable(entry)
    requires forall entry | entry in b :: Frameable(entry)
    requires Encode(a) == Encode(b)
    ensures a == b
  {
    DecodeEncode(a);
    DecodeEncode(b);
  }

  lemma {:induction false} EncodeAppend(entries: seq<Entry>, entry: Entry)
    requires forall e | e in entries + [entry] :: Frameable(e)
    ensures entry in entries + [entry]
    ensures forall e | e in entries :: e in entries + [entry]
    ensures Encode(entries + [entry]) == Encode(entries) + EncodeEntry(entry)
  {
    assert (entries + [entry])[|entries|] == entry;
    if entries != [] {
      assert (entries + [entry])[1..] == entries[1..] + [entry];
      EncodeAppend(entries[1..], entry);
    }
  }

  // ---------- The hash ----------

  class Digest {
    var fed: Bytes

    constructor ()
      ensures fed == ""
    {
      fed := "";
    }

    method Update(piece: Bytes)
      modifies this
      ensures fed == old(fed) + piece
    {
      fed := fed + piece;
    }
  }

  // The entry of one name, when that is safe, present and not too long.
  function EntryOf(tree: Tree, name: string): Option<Entry> {
    var path := SafeRelativePath(name);
    if path.None? || path.value !in tree || !Frameable(Entry(path.value, tree[path.value])) then None
    else Some(Entry(path.value, tree[path.value]))
  }

  // The entries a sequence of names stands for, when every name has one.
  function EntriesOf(tree: Tree, names: seq<string>): Option<seq<Entry>> {
    if names == [] then Some([])
    else
      var first, rest := EntryOf(tree, names[0]), EntriesOf(tree, names[1..]);
      if first.None? || rest.None? then None else Some([first.value] + rest.value)
  }

  lemma {:induction false} EntriesAreFrameable(tree: Tree, names: seq<string>)
    requires EntriesOf(tree, names).Some?
    ensures |EntriesOf(tree, names).value| == |names|
    ensures forall entry | entry in EntriesOf(tree, names).value :: Frameable(entry)
    ensures forall i | 0 <= i < |names| ::
              && SafeRelativePath(names[i]) == Some(EntriesOf(tree, names).value[i].name)
              && EntriesOf(tree, names).value[i].name in tree
              && EntriesOf(tree, names).value[i].data == tree[EntriesOf(tree, names).value[i].name]
  {
    if names != [] {
      EntriesAreFrameable(tree, names[1..]);
      assert names == [names[0]] + names[1..];
    }
  }

  // The names that are hashed: the supplied ones, or all files when none are supplied.
  function HashedNames(listing: seq<string>, paths: Option<seq<string>>): seq<string> {
    Sort(if paths.Some? && paths.value != [] then paths.value else listing, TextLeq)
  }

  lemma {:induction false} EntriesOfNext(tree: Tree, names: seq<string>, i: nat)
    requires i < |names| && EntriesOf(tree, names[..i]).Some?
    ensures EntryOf(tree, names[i]).None? ==> EntriesOf(tree, names).None?
    ensures EntryOf(tree, names[i]).Some? ==>
      EntriesOf(tree, names[..i + 1]) == Some(EntriesOf(tree, names[..i]).value + [EntryOf(tree, names[i]).value])
  {
    if i == 0 {
      assert names[..0] == [] && names[..1][1..] == [] && names[..1][0] == names[0];
      var none: seq<Entry> := [];
      if EntryOf(tree, names[0]).Some? {
        assert [EntryOf(tree, names[0]).value] + none == none + [EntryOf(tree, names[0]).value];
      }
    } else {
      assert names[..i][1..] == names[1..][..i - 1];
      assert names[..i + 1][1..] == names[1..][..i];
      EntriesOfNext(tree, names[1..], i - 1);
      if EntryOf(tree, names[i]).Some? {
        var first, middle := EntryOf(tree, names[0]).value, EntriesOf(tree, names[1..][..i - 1]).value;
        assert EntriesOf(tree, names[..i + 1]) == Some([first] + (middle + [EntryOf(tree, names[i]).value]));
        var last := EntryOf(tree, names[i]).value;
        assert [first] + (middle + [last]) == ([first] + middle) + [last];
      }
    }
  }

  // One framed entry, in four updates.
  method FeedEntry(running: Digest, entry: Entry)
    requires Frameable(entry)
    modifies running
    ensures running.fed == old(running.fed) + EncodeEntry(entry)
  {
    running.Update(Frame(|entry.name|));
    running.Update(entry.name);
    running.Update(Frame(|entry.data|));
    running.Update(entry.data);
  }

  // The next name brings one more entry, or there are none at all.
  lemma OneMoreEntry(tree: Tree, names: seq<string>, i: nat, entries: seq<Entry>, entry: Option<Entry>)
    requires i < |names| && EntriesOf(tree, names[..i]) == Some(entries) && entry == EntryOf(tree, names[i])
    requires forall e | e in entries :: Frameable(e)
    ensures entry.None? ==> EntriesOf(tree, names).None?
    ensures entry.Some? ==>
      && Frameable(entry.value)
      && EntriesOf(tree, names[..i + 1]) == Some(entries + [entry.value])
      && Encode(entries + [entry.value]) == Encode(entries) + EncodeEntry(entry.value)
  {
    EntriesOfNext(tree, names, i);
    if entry.Some? {
      EncodeAppend(entries, entry.value);
    }
  }

  // Feed every entry in sorted order. A name that is unsafe, absent or too long ends the hash.
  method HashTree(tree: Tree, listing: seq<string>, paths: Option<seq<string>>)
      returns (digest: Option<Digest>, ghost entries: seq<Entry>)
    ensures digest.Some? <==> EntriesOf(tree, HashedNames(listing, paths)).Some?
    ensures digest.Some? ==>
      && entries == EntriesOf(tree, HashedNames(listing, paths)).value
      && (forall entry | entry in entries :: Frameable(entry))
      && fresh(digest.value) && digest.value.fed == Encode(entries)
  {
    var names := HashedNames(listing, paths);
    var running := new Digest();
    entries := [];
    for i := 0 to |names|
      invariant fresh(running)
      invariant EntriesOf(tree, names[..i]) == Some(entries)
      invariant forall entry | entry in entries :: Frameable(entry)
      invariant running.fed == Encode(entries)
    {
      var entry := EntryOf(tree, names[i]);
      OneMoreEntry(tree, names, i, entries, entry);
      if entry.None? {
        return None, entries;
      }
      FeedEntry(running, entry.value);
      entries := entries + [entry.value];
    }
    assert names[..|names|] == names;
    return Some(running), entries;
  }

  // The order in which paths are supplied does not matter.
  lemma SuppliedOrderIsIrrelevant(tree: Tree, listing: seq<string>, a: seq<string>, b: seq<string>)
    requires multiset(a) == multiset(b)
    ensures HashedNames(listing, Some(a)) == HashedNames(listing, Some(b))
  {
    TextLeqIsPreorder();
    SameMultisetSameMembers(a, b);
    forall x, y | TextLeq(x, y) && TextLeq(y, x)
      ensures x == y
    {
      TextLeqTotal(x, y);
    }
    SortIgnoresOrder(a, b, TextLeq);
  }

  // Every file of the tree is listed, under a name in normal form.
  predicate ListsTree(tree: Tree, listing: seq<string>) {
    && (forall name | name in listing :: name in tree && SafeRelativePath(name) == Some(name))
    && (forall name | name in tree :: name in listing)
  }

  lemma TreeIsItsEntries(tree: Tree, listing: seq<string>)
    requires ListsTree(tree, listing) && EntriesOf(tree, HashedNames(listing, None)).Some?
    ensures forall name, data ::
              (name in tree && tree[name] == data) <==>
              Entry(name, data) in EntriesOf(tree, HashedNames(listing, None)).value
  {
    var names := HashedNames(listing, None);
    var entries := EntriesOf(tree, names).value;
    SortPermutes(listing, TextLeq);
    SameMultisetSameMembers(names, listing);
    EntriesAreFrameable(tree, names);
    forall name, data
      ensures (name in tree && tree[name] == data) <==> Entry(name, data) in entries
    {
      if name in tree && tree[name] == data {
        var i :| 0 <= i < |names| && names[i] == name;
        assert entries[i] == Entry(name, data);
      }
      if Entry(name, data) in entries {
        var i :| 0 <= i < |entries| && entries[i] == Entry(name, data);
        assert SafeRelativePath(names[i]) == Some(name);
      }
    }
  }

  lemma SameEntriesSameTree(a: Tree, b: Tree, listingA: seq<string>, listingB: seq<string>)
    requires ListsTree(a, listingA) && EntriesOf(a, HashedNames(listingA, None)).Some?
    requires ListsTree(b, listingB)
    requires EntriesOf(a, HashedNames(listingA, None)) == EntriesOf(b, HashedNames(listingB, None))
    ensures a == b
  {
    TreeIsItsEntries(a, listingA);
    TreeIsItsEntries(b, listingB);
    var entries := EntriesOf(a, HashedNames(listingA, None)).value;
    forall name
      ensures name in a <==> name in b
      ensures name in a ==> a[name] == b[name]
    {
      if name in a {
        assert Entry(name, a[name]) in entries;
      }
      if name in b {
        assert Entry(name, b[name]) in entries;
      }
    }
  }

  // Two whole trees with the same byte stream, hence the same digest, are the same tree.
  lemma EqualStreamsEqualTrees(
    a: Tree, b: Tree, listingA: seq<string>, listingB: seq<string>, x: seq<Entry>, y: seq<Entry>)
    requires ListsTree(a, listingA) && ListsTree(b, listingB)
    requires EntriesOf(a, HashedNames(listingA, None)) == Some(x)
    requires EntriesOf(b, HashedNames(listingB, None)) == Some(y)
    ensures forall e | e in x :: Frameable(e)
    ensures forall e | e in y :: Frameable(e)
    ensures Encode(x) == Encode(y) <==> a == b && x == y
  {
    EntriesAreFrameable(a, HashedNames(listingA, None));
    EntriesAreFrameable(b, HashedNames(listingB, None));
    if Encode(x) == Encode(y) {
      EncodeIsInjective(x, y);
      SameEntriesSameTree(a, b, listingA, listingB);
    }
  }
}
