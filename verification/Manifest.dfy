/**
 The evidence manifest: its normal form, in which everything that is a set is sorted, and the
 hashes of a claim and of the whole manifest.

 A SHA-256 digest of canonical JSON is an injective tag of the value that was encoded.
 */
module Manifest {
  import opened Wrappers
  import opened Sorting

  datatype Json =
    | Null
    | Bool(b: bool)
    | Number(n: int)
    | Str(s: string)
    | Arr(items: seq<Json>)
    | Obj(fields: map<string, Json>)

  type Document = map<string, Json>

  // str(value): a text stays itself, anything else is rendered.
  datatype Rendering = Rendering(other: Json -> string)

  function Text(value: Json, rendering: Rendering): string {
    if value.Str? then value.s else rendering.other(value)
  }

  // ---------- Keys and orders ----------

  predicate AllTexts(items: seq<Json>) {
    forall item | item in items :: item.Str?
  }

  predicate StrLeq(a: Json, b: Json) {
    !a.Str? || (b.Str? && TextLeq(a.s, b.s))
  }

  // item.get("claim_id", "") of a mapping, the empty text of anything else
  function ClaimId(claim: Json): string {
    if claim.Obj? && "claim_id" in claim.fields && claim.fields["claim_id"].Str?
    then claim.fields["claim_id"].s else ""
  }

  predicate ClaimLeq(a: Json, b: Json) {
    TextLeq(ClaimId(a), ClaimId(b))
  }

  function Member(receipt: Json, key: string, rendering: Rendering): string {
    if receipt.Obj? && key in receipt.fields then Text(receipt.fields[key], rendering) else ""
  }

  function ReceiptKey(receipt: Json, rendering: Rendering): (string, string, string) {
    (Member(receipt, "claim_id", rendering), Member(receipt, "path", rendering), Member(receipt, "sha256", rendering))
  }

  predicate KeyLeq(a: (string, string, string), b: (string, string, string)) {
    TextLeq(a.0, b.0) &&
    (a.0 == b.0 ==> TextLeq(a.1, b.1) && (a.1 == b.1 ==> TextLeq(a.2, b.2)))
  }

  function ReceiptOrder(rendering: Rendering): (Json, Json) -> bool {
    (a: Json, b: Json) => KeyLeq(ReceiptKey(a, rendering), ReceiptKey(b, rendering))
  }

  lemma StrLeqIsPreorder()
    ensures TotalPreorder(StrLeq)
  {
    TextLeqIsPreorder();
  }

  lemma ClaimLeqIsPreorder()
    ensures TotalPreorder(ClaimLeq)
  {
    TextLeqIsPreorder();
  }

  lemma KeyLeqAntisymmetric(a: (string, string, string), b: (string, string, string))
    ensures KeyLeq(a, b) || KeyLeq(b, a)
    ensures KeyLeq(a, b) && KeyLeq(b, a) ==> a == b
  {
    TextLeqTotal(a.0, b.0);
    TextLeqTotal(a.1, b.1);
    TextLeqTotal(a.2, b.2);
  }

  lemma KeyLeqTransitive(a: (string, string, string), b: (string, string, string), c: (string, string, string))
    requires KeyLeq(a, b) && KeyLeq(b, c)
    ensures KeyLeq(a, c)
  {
    TextLeqTransitive(a.0, b.0, c.0);
    TextLeqTotal(a.0, b.0);
    TextLeqTotal(b.0, c.0);
    if a.0 == c.0 {
      TextLeqTransitive(a.1, b.1, c.1);
      TextLeqTotal(a.1, b.1);
      TextLeqTotal(b.1, c.1);
      if a.1 == c.1 {
        TextLeqTransitive(a.2, b.2, c.2);
      }
    }
  }

  lemma ReceiptOrderIsPreorder(rendering: Rendering)
    ensures TotalPreorder(ReceiptOrder(rendering))
  {
    var leq := ReceiptOrder(rendering);
    forall x, y
      ensures leq(x, y) || leq(y, x)
    {
      KeyLeqAntisymmetric(ReceiptKey(x, rendering), ReceiptKey(y, rendering));
    }
    forall x, y, z | leq(x, y) && leq(y, z)
      ensures leq(x, z)
    {
      KeyLeqTransitive(ReceiptKey(x, rendering), ReceiptKey(y, rendering), ReceiptKey(z, rendering));
    }
  }

  // ---------- The normal form ----------

  const SET_FIELDS := ["authority_source", "proof_nodes"]

  // A list of texts is sorted; anything else is left alone.
  function NormalField(value: Json): Json {
    if value.Arr? && AllTexts(value.items) then Arr(Sort(value.items, StrLeq)) else value
  }

  function NormalFields(fields: map<string, Json>): (r: map<string, Json>)
    ensures r.Keys == fields.Keys
  {
    map k | k in fields :: if k in SET_FIELDS then NormalField(fields[k]) else fields[k]
  }

  function NormalClaim(claim: Json): Json {
    if claim.Obj? then Obj(NormalFields(claim.fields)) else claim
  }

  function NormalClaims(claims: seq<Json>): (r: seq<Json>)
    ensures |r| == |claims|
    ensures forall i | 0 <= i < |claims| :: r[i] == NormalClaim(claims[i])
  {
    seq(|claims|, i requires 0 <= i < |claims| => NormalClaim(claims[i]))
  }

  function Normalize(document: Document, rendering: Rendering): (r: Document)
    ensures r.Keys == document.Keys
  {
    map k | k in document ::
      if k == "claims" && document[k].Arr? then Arr(Sort(NormalClaims(document[k].items), ClaimLeq))
      else if k == "live_receipts" && document[k].Arr? then Arr(Sort(document[k].items, ReceiptOrder(rendering)))
      else document[k]
  }

  // The copy is changed in place: the set fields of each claim, then the two lists.
  method NormalizeManifest(document: Document, rendering: Rendering) returns (normalized: Document)
    ensures normalized == Normalize(document, rendering)
  {
    normalized := document;
    if "claims" in normalized && normalized["claims"].Arr? {
      var claims := normalized["claims"].items;
      for i := 0 to |claims|
        invariant |claims| == |document["claims"].items|
        invariant forall j | 0 <= j < i :: claims[j] == NormalClaim(document["claims"].items[j])
        invariant forall j | i <= j < |claims| :: claims[j] == document["claims"].items[j]
      {
        if claims[i].Obj? {
          var fields := claims[i].fields;
          for f := 0 to |SET_FIELDS|
            invariant fields.Keys == claims[i].fields.Keys
            invariant forall k | k in fields ::
              fields[k] == if k in SET_FIELDS[..f] then NormalField(claims[i].fields[k]) else claims[i].fields[k]
          {
            assert SET_FIELDS[f] !in SET_FIELDS[..f];
            assert SET_FIELDS[..f + 1] == SET_FIELDS[..f] + [SET_FIELDS[f]];
            if SET_FIELDS[f] in fields {
              fields := fields[SET_FIELDS[f] := NormalField(fields[SET_FIELDS[f]])];
            }
          }
          assert SET_FIELDS[..|SET_FIELDS|] == SET_FIELDS;
          assert fields == NormalFields(claims[i].fields);
          claims := claims[i := Obj(fields)];
        }
      }
      assert claims == NormalClaims(document["claims"].items);
      normalized := normalized["claims" := Arr(Sort(claims, ClaimLeq))];
    }
    if "live_receipts" in normalized && normalized["live_receipts"].Arr? {
      normalized :=
        normalized["live_receipts" := Arr(Sort(normalized["live_receipts"].items, ReceiptOrder(rendering)))];
    }
    assert "claims" != "live_receipts";
  }

  // ---------- Hashes ----------

  datatype Digest = OfClaim(fields: map<string, Json>) | OfManifest(document: Document)

  // Every field but the derived hash, the set fields sorted.
  function ClaimMaterial(claim: map<string, Json>): map<string, Json> {
    NormalFields(claim) - {"hash"}
  }

  method CanonicalClaimMaterial(claim: map<string, Json>) returns (material: map<string, Json>)
    ensures material == ClaimMaterial(claim)
  {
    material := claim - {"hash"};
    for f := 0 to |SET_FIELDS|
      invariant material.Keys == claim.Keys - {"hash"}
      invariant forall k | k in material ::
        material[k] == if k in SET_FIELDS[..f] then NormalField(claim[k]) else claim[k]
    {
      assert SET_FIELDS[f] !in SET_FIELDS[..f];
      assert SET_FIELDS[..f + 1] == SET_FIELDS[..f] + [SET_FIELDS[f]];
      if SET_FIELDS[f] in material {
        material := material[SET_FIELDS[f] := NormalField(material[SET_FIELDS[f]])];
      }
    }
    assert SET_FIELDS[..|SET_FIELDS|] == SET_FIELDS;
    assert material == ClaimMaterial(claim);
  }

  function ClaimHash(claim: map<string, Json>): Digest {
    OfClaim(ClaimMaterial(claim))
  }

  function ManifestHash(document: Document, rendering: Rendering): Digest {
    OfManifest(Normalize(document, rendering) - {"manifest_hash"})
  }

  // ---------- Idempotence ----------

  lemma SortedTextsAreTexts(items: seq<Json>)
    requires AllTexts(items)
    ensures AllTexts(Sort(items, StrLeq))
  {
    SortPermutes(items, StrLeq);
    SameMultisetSameMembers(Sort(items, StrLeq), items);
  }

  lemma NormalFieldIdempotent(value: Json)
    ensures NormalField(NormalField(value)) == NormalField(value)
  {
    if value.Arr? && AllTexts(value.items) {
      StrLeqIsPreorder();
      SortedTextsAreTexts(value.items);
      SortIdempotent(value.items, StrLeq);
    }
  }

  lemma NormalClaimIdempotent(claim: Json)
    ensures NormalClaim(NormalClaim(claim)) == NormalClaim(claim)
  {
    if claim.Obj? {
      forall k | k in claim.fields
        ensures NormalFields(NormalFields(claim.fields))[k] == NormalFields(claim.fields)[k]
      {
        NormalFieldIdempotent(claim.fields[k]);
      }
      assert NormalFields(NormalFields(claim.fields)) == NormalFields(claim.fields);
    }
  }

  lemma NormalClaimsFixed(claims: seq<Json>, source: seq<Json>)
    requires forall claim | claim in claims :: claim in NormalClaims(source)
    ensures NormalClaims(claims) == claims
  {
    forall i | 0 <= i < |claims|
      ensures NormalClaim(claims[i]) == claims[i]
    {
      assert claims[i] in claims;
      var j :| 0 <= j < |source| && NormalClaims(source)[j] == claims[i];
      NormalClaimIdempotent(source[j]);
    }
  }

  // Normalising twice is normalising once.
  lemma NormalizeIdempotent(document: Document, rendering: Rendering)
    ensures Normalize(Normalize(document, rendering), rendering) == Normalize(document, rendering)
  {
    var once := Normalize(document, rendering);
    ClaimLeqIsPreorder();
    ReceiptOrderIsPreorder(rendering);
    if "claims" in document && document["claims"].Arr? {
      var normal := NormalClaims(document["claims"].items);
      SortPermutes(normal, ClaimLeq);
      SameMultisetSameMembers(Sort(normal, ClaimLeq), normal);
      NormalClaimsFixed(Sort(normal, ClaimLeq), document["claims"].items);
      SortIdempotent(normal, ClaimLeq);
    }
    if "live_receipts" in document && document["live_receipts"].Arr? {
      SortIdempotent(document["live_receipts"].items, ReceiptOrder(rendering));
    }
    assert Normalize(once, rendering) == once;
  }

  // ---------- What two claims with one normal form have in common ----------

  // The two values list the same texts, or are the same.
  predicate SameField(a: Json, b: Json) {
    a == b ||
    (a.Arr? && b.Arr? && AllTexts(a.items) && AllTexts(b.items) && multiset(a.items) == multiset(b.items))
  }

  // The claims differ at most in the order of their sources and proof nodes.
  predicate SameClaim(a: Json, b: Json) {
    a == b ||
    (a.Obj? && b.Obj? && a.fields.Keys == b.fields.Keys &&
     forall k | k in a.fields ::
       if k in SET_FIELDS then SameField(a.fields[k], b.fields[k]) else a.fields[k] == b.fields[k])
  }

  lemma StrLeqDistinguishesTexts(items: seq<Json>)
    requires AllTexts(items)
    ensures Distinguishes(StrLeq, items)
  {
    forall x, y | x in items && y in items && StrLeq(x, y) && StrLeq(y, x)
      ensures x == y
    {
      TextLeqTotal(x.s, y.s);
    }
  }

  lemma NormalFieldExact(a: Json, b: Json)
    ensures NormalField(a) == NormalField(b) <==> SameField(a, b)
  {
    StrLeqIsPreorder();
    if a.Arr? && AllTexts(a.items) {
      SortedTextsAreTexts(a.items);
      SortPermutes(a.items, StrLeq);
      StrLeqDistinguishesTexts(a.items);
    }
    if b.Arr? && AllTexts(b.items) {
      SortedTextsAreTexts(b.items);
      SortPermutes(b.items, StrLeq);
    }
    if a.Arr? && b.Arr? && AllTexts(a.items) && AllTexts(b.items) && multiset(a.items) == multiset(b.items) {
      SortIgnoresOrder(a.items, b.items, StrLeq);
    }
  }

  // Two claims have one normal form exactly when only the order of sources or proof nodes differs.
  lemma NormalClaimExact(a: Json, b: Json)
    ensures NormalClaim(a) == NormalClaim(b) <==> SameClaim(a, b)
  {
    if a.Obj? && b.Obj? {
      forall k | k in a.fields && k in b.fields
        ensures NormalField(a.fields[k]) == NormalField(b.fields[k]) <==> SameField(a.fields[k], b.fields[k])
      {
        NormalFieldExact(a.fields[k], b.fields[k]);
      }
      var left, right := NormalFields(a.fields), NormalFields(b.fields);
      if SameClaim(a, b) {
        assert left == right;
      } else if left == right {
        assert a.fields.Keys == left.Keys == b.fields.Keys;
        forall k | k in a.fields
          ensures if k in SET_FIELDS then SameField(a.fields[k], b.fields[k]) else a.fields[k] == b.fields[k]
        {
          assert left[k] == right[k];
        }
      }
    }
  }

  // ---------- Rearranging the claims ----------

  lemma {:induction false} NormalClaimsPermute(a: seq<Json>, b: seq<Json>)
    requires multiset(a) == multiset(b)
    ensures multiset(NormalClaims(a)) == multiset(NormalClaims(b))
  {
    SameMultisetSameMembers(a, b);
    if a != [] {
      assert a[0] in b;
      var j :| 0 <= j < |b| && b[j] == a[0];
      SameRest(a, b, 0, j);
      NormalClaimsPermute(Without(a, 0), Without(b, j));
      NormalClaimsWithout(a, 0);
      NormalClaimsWithout(b, j);
    }
  }

  lemma NormalClaimsWithout(claims: seq<Json>, j: nat)
    requires j < |claims|
    ensures NormalClaims(Without(claims, j)) == Without(NormalClaims(claims), j)
    ensures multiset(NormalClaims(claims)) ==
            multiset{NormalClaim(claims[j])} + multiset(NormalClaims(Without(claims, j)))
  {
    assert NormalClaims(Without(claims, j)) == Without(NormalClaims(claims), j);
    WithoutOne(NormalClaims(claims), j);
  }

  // Any arrangement of the normal claims is the normal form of an arrangement of the claims.
  lemma {:induction false} LiftArrangement(a: seq<Json>, arranged: seq<Json>) returns (claims: seq<Json>)
    requires multiset(arranged) == multiset(NormalClaims(a))
    ensures multiset(claims) == multiset(a)
    ensures NormalClaims(claims) == arranged
  {
    SameMultisetSameMembers(arranged, NormalClaims(a));
    if a == [] {
      claims := [];
    } else {
      assert arranged[0] in NormalClaims(a);
      var j :| 0 <= j < |a| && NormalClaims(a)[j] == arranged[0];
      NormalClaimsWithout(a, j);
      SameRest(arranged, NormalClaims(a), 0, j);
      var shorter := LiftArrangement(Without(a, j), Without(arranged, 0));
      claims := [a[j]] + shorter;
      WithoutOne(a, j);
      assert NormalClaims(claims) == [NormalClaim(a[j])] + NormalClaims(shorter);
      assert arranged == [arranged[0]] + Without(arranged, 0);
    }
  }

  // All arrangements of the claims have one normal form exactly when no two different normal claims
  // share a claim id.
  lemma ClaimOrderIsIrrelevant(claims: seq<Json>)
    ensures Distinguishes(ClaimLeq, NormalClaims(claims)) <==>
            forall other | multiset(other) == multiset(claims) ::
              Sort(NormalClaims(other), ClaimLeq) == Sort(NormalClaims(claims), ClaimLeq)
  {
    ClaimLeqIsPreorder();
    var normal := NormalClaims(claims);
    OrderIndependence(normal, ClaimLeq);
    if Distinguishes(ClaimLeq, normal) {
      forall other | multiset(other) == multiset(claims)
        ensures Sort(NormalClaims(other), ClaimLeq) == Sort(normal, ClaimLeq)
      {
        NormalClaimsPermute(other, claims);
      }
    } else {
      var arranged :| multiset(arranged) == multiset(normal) && Sort(arranged, ClaimLeq) != Sort(normal, ClaimLeq);
      var other := LiftArrangement(claims, arranged);
      assert Sort(NormalClaims(other), ClaimLeq) != Sort(normal, ClaimLeq);
    }
  }

  lemma NormalKeepsId(claim: Json)
    ensures ClaimId(NormalClaim(claim)) == ClaimId(claim)
  {
    assert "claim_id" !in SET_FIELDS;
  }

  lemma SameIdExact(x: Json, y: Json)
    ensures ClaimLeq(x, y) && ClaimLeq(y, x) <==> ClaimId(x) == ClaimId(y)
  {
    TextLeqTotal(ClaimId(x), ClaimId(y));
  }

  lemma DistinctIdsAreDistinguished(claims: seq<Json>)
    requires forall i, j | 0 <= i < j < |claims| :: ClaimId(claims[i]) != ClaimId(claims[j])
    ensures Distinguishes(ClaimLeq, NormalClaims(claims))
  {
    var normal := NormalClaims(claims);
    forall x, y | x in normal && y in normal && ClaimLeq(x, y) && ClaimLeq(y, x)
      ensures x == y
    {
      SameIdExact(x, y);
      var i :| 0 <= i < |normal| && normal[i] == x;
      var j :| 0 <= j < |normal| && normal[j] == y;
      NormalKeepsId(claims[i]);
      NormalKeepsId(claims[j]);
    }
  }

  // A receipt of exactly the three fields its place is decided by.
  predicate ThreeFields(receipt: Json) {
    && receipt.Obj?
    && receipt.fields.Keys == {"claim_id", "path", "sha256"}
    && forall k | k in receipt.fields :: receipt.fields[k].Str?
  }

  lemma ThreeFieldReceiptsAreDistinguished(receipts: seq<Json>, rendering: Rendering)
    requires forall receipt | receipt in receipts :: ThreeFields(receipt)
    ensures Distinguishes(ReceiptOrder(rendering), receipts)
  {
    forall x, y | x in receipts && y in receipts && ReceiptOrder(rendering)(x, y) && ReceiptOrder(rendering)(y, x)
      ensures x == y
    {
      KeyLeqAntisymmetric(ReceiptKey(x, rendering), ReceiptKey(y, rendering));
      assert x.fields == y.fields;
    }
  }

  // ---------- Whole manifests ----------

  predicate SameEach(a: seq<Json>, b: seq<Json>) {
    |a| == |b| && forall i | 0 <= i < |a| :: SameClaim(a[i], b[i])
  }

  // One arrangement of the first claims agrees with the second claim by claim.
  ghost predicate SameClaims(a: seq<Json>, b: seq<Json>) {
    exists arranged: seq<Json> :: SameEach(arranged, b) && multiset(arranged) == multiset(a)
  }

  // The manifests say the same: nothing differs but the order of claims, receipts, sources and nodes.
  ghost predicate SameDocument(a: Document, b: Document) {
    a.Keys == b.Keys &&
    forall k | k in a ::
      if k == "claims" && a[k].Arr? && b[k].Arr? then SameClaims(a[k].items, b[k].items)
      else if k == "live_receipts" && a[k].Arr? && b[k].Arr? then multiset(a[k].items) == multiset(b[k].items)
      else a[k] == b[k]
  }

  // No two different claims share an id, no two different receipts share their three fields.
  predicate Identified(document: Document, rendering: Rendering) {
    && ("claims" in document && document["claims"].Arr? ==>
          Distinguishes(ClaimLeq, NormalClaims(document["claims"].items)))
    && ("live_receipts" in document && document["live_receipts"].Arr? ==>
          Distinguishes(ReceiptOrder(rendering), document["live_receipts"].items))
  }

  lemma SortedClaimsExact(a: seq<Json>, b: seq<Json>)
    ensures Sort(NormalClaims(a), ClaimLeq) == Sort(NormalClaims(b), ClaimLeq) ==> SameClaims(a, b)
    ensures Distinguishes(ClaimLeq, NormalClaims(a)) && SameClaims(a, b) ==>
              Sort(NormalClaims(a), ClaimLeq) == Sort(NormalClaims(b), ClaimLeq)
  {
    ClaimLeqIsPreorder();
    SortPermutes(NormalClaims(a), ClaimLeq);
    SortPermutes(NormalClaims(b), ClaimLeq);
    if Sort(NormalClaims(a), ClaimLeq) == Sort(NormalClaims(b), ClaimLeq) {
      var arranged := LiftArrangement(a, NormalClaims(b));
      forall i | 0 <= i < |b|
        ensures SameClaim(arranged[i], b[i])
      {
        assert NormalClaim(arranged[i]) == NormalClaims(arranged)[i] == NormalClaims(b)[i];
        NormalClaimExact(arranged[i], b[i]);
      }
      assert |arranged| == |NormalClaims(arranged)|;
      assert SameEach(arranged, b);
    }
    if Distinguishes(ClaimLeq, NormalClaims(a)) && SameClaims(a, b) {
      var arranged: seq<Json> :| SameEach(arranged, b) && multiset(arranged) == multiset(a);
      forall i | 0 <= i < |b|
        ensures NormalClaims(arranged)[i] == NormalClaims(b)[i]
      {
        NormalClaimExact(arranged[i], b[i]);
      }
      assert NormalClaims(arranged) == NormalClaims(b);
      NormalClaimsPermute(arranged, a);
      SortIgnoresOrder(NormalClaims(a), NormalClaims(b), ClaimLeq);
    }
  }

  // Nothing is lost or added: every list keeps its elements, every other entry its value.
  lemma NormalizeConserves(document: Document, rendering: Rendering)
    ensures "claims" in document && document["claims"].Arr? ==>
              Normalize(document, rendering)["claims"].Arr? &&
              SameClaims(document["claims"].items, Normalize(document, rendering)["claims"].items)
    ensures "live_receipts" in document && document["live_receipts"].Arr? ==>
              Normalize(document, rendering)["live_receipts"].Arr? &&
              multiset(Normalize(document, rendering)["live_receipts"].items) ==
              multiset(document["live_receipts"].items)
    ensures SameDocument(document, Normalize(document, rendering))
  {
    NormalizeIdempotent(document, rendering);
    NormalFormForcesSame(document, Normalize(document, rendering), rendering);
  }

  lemma NormalFormForcesSame(a: Document, b: Document, rendering: Rendering)
    requires Normalize(a, rendering) == Normalize(b, rendering)
    ensures SameDocument(a, b)
  {
    var left, right := Normalize(a, rendering), Normalize(b, rendering);
    assert a.Keys == left.Keys == b.Keys;
    forall k | k in a
      ensures if k == "claims" && a[k].Arr? && b[k].Arr? then SameClaims(a[k].items, b[k].items)
              else if k == "live_receipts" && a[k].Arr? && b[k].Arr? then multiset(a[k].items) == multiset(b[k].items)
              else a[k] == b[k]
    {
      assert left[k] == right[k];
      if k == "claims" && a[k].Arr? && b[k].Arr? {
        SortedClaimsExact(a[k].items, b[k].items);
      } else if k == "live_receipts" && a[k].Arr? && b[k].Arr? {
        SortPermutes(a[k].items, ReceiptOrder(rendering));
        SortPermutes(b[k].items, ReceiptOrder(rendering));
      }
    }
  }

  // ---------- When two manifests have one normal form ----------

  // The claims with one id, as they stand.
  function WithId(claims: seq<Json>, id: string): seq<Json> {
    if claims == [] then []
    else (if ClaimId(claims[0]) == id then [claims[0]] else []) + WithId(claims[1..], id)
  }

  // Under every id the two lists hold the same claims, in the same order.
  ghost predicate SameClaimsById(a: seq<Json>, b: seq<Json>) {
    forall id :: SameEach(WithId(a, id), WithId(b, id))
  }

  // The manifests say the same, and neither two claims of one id nor two receipts of one key have
  // changed places.
  ghost predicate SameInOrder(a: Document, b: Document, rendering: Rendering) {
    a.Keys == b.Keys &&
    forall k | k in a ::
      if k == "claims" && a[k].Arr? && b[k].Arr? then SameClaimsById(a[k].items, b[k].items)
      else if k == "live_receipts" && a[k].Arr? && b[k].Arr?
      then SameByKey(a[k].items, b[k].items, ReceiptOrder(rendering))
      else a[k] == b[k]
  }

  lemma NormalClaimsJoin(a: seq<Json>, b: seq<Json>)
    ensures NormalClaims(a + b) == NormalClaims(a) + NormalClaims(b)
  {
  }

  lemma {:induction false} WithIdIsAlike(claims: seq<Json>, x: Json)
    ensures Alike(NormalClaims(claims), x, ClaimLeq) == NormalClaims(WithId(claims, ClaimId(x)))
  {
    if claims == [] {
      assert NormalClaims([]) == [];
    } else {
      var head := if ClaimId(claims[0]) == ClaimId(x) then [claims[0]] else [];
      WithIdIsAlike(claims[1..], x);
      AlikeById(claims, x);
      assert NormalClaims(head) == if ClaimId(claims[0]) == ClaimId(x) then [NormalClaim(claims[0])] else [];
      NormalClaimsJoin(head, WithId(claims[1..], ClaimId(x)));
    }
  }

  lemma AlikeById(claims: seq<Json>, x: Json)
    requires claims != []
    ensures Alike(NormalClaims(claims), x, ClaimLeq) ==
            (if ClaimId(claims[0]) == ClaimId(x) then [NormalClaim(claims[0])] else [])
            + Alike(NormalClaims(claims[1..]), x, ClaimLeq)
  {
    SameIdExact(x, NormalClaim(claims[0]));
    NormalKeepsId(claims[0]);
    assert NormalClaims(claims)[1..] == NormalClaims(claims[1..]);
  }

  lemma SameEachExact(a: seq<Json>, b: seq<Json>)
    ensures NormalClaims(a) == NormalClaims(b) <==> SameEach(a, b)
  {
    assert |NormalClaims(a)| == |a| && |NormalClaims(b)| == |b|;
    forall i | 0 <= i < |a| && i < |b|
      ensures NormalClaims(a)[i] == NormalClaims(b)[i] <==> SameClaim(a[i], b[i])
    {
      NormalClaimExact(a[i], b[i]);
    }
  }

  function Named(id: string): Json {
    Obj(map["claim_id" := Str(id)])
  }

  // The sorted normal claims agree exactly when the claims agree id by id, in order.
  lemma SortedClaimsById(a: seq<Json>, b: seq<Json>)
    ensures Sort(NormalClaims(a), ClaimLeq) == Sort(NormalClaims(b), ClaimLeq) <==> SameClaimsById(a, b)
  {
    ClaimLeqIsPreorder();
    SortExact(NormalClaims(a), NormalClaims(b), ClaimLeq);
    if SameClaimsById(a, b) {
      forall x
        ensures Alike(NormalClaims(a), x, ClaimLeq) == Alike(NormalClaims(b), x, ClaimLeq)
      {
        WithIdIsAlike(a, x);
        WithIdIsAlike(b, x);
        SameEachExact(WithId(a, ClaimId(x)), WithId(b, ClaimId(x)));
      }
    }
    if SameByKey(NormalClaims(a), NormalClaims(b), ClaimLeq) {
      forall id
        ensures SameEach(WithId(a, id), WithId(b, id))
      {
        WithIdIsAlike(a, Named(id));
        WithIdIsAlike(b, Named(id));
        SameEachExact(WithId(a, id), WithId(b, id));
      }
    }
  }

  lemma NormalEntryExact(a: Document, b: Document, k: string, rendering: Rendering)
    requires k in a && k in b
    ensures Normalize(a, rendering)[k] == Normalize(b, rendering)[k] <==>
            (if k == "claims" && a[k].Arr? && b[k].Arr? then SameClaimsById(a[k].items, b[k].items)
             else if k == "live_receipts" && a[k].Arr? && b[k].Arr?
             then SameByKey(a[k].items, b[k].items, ReceiptOrder(rendering))
             else a[k] == b[k])
  {
    if k == "claims" && a[k].Arr? && b[k].Arr? {
      SortedClaimsById(a[k].items, b[k].items);
    } else if k == "live_receipts" && a[k].Arr? && b[k].Arr? {
      ReceiptOrderIsPreorder(rendering);
      SortExact(a[k].items, b[k].items, ReceiptOrder(rendering));
    }
  }

  // Two manifests have one normal form exactly when they say the same in the same order under every
  // claim id and every receipt key.
  lemma NormalFormExact(a: Document, b: Document, rendering: Rendering)
    ensures Normalize(a, rendering) == Normalize(b, rendering) <==> SameInOrder(a, b, rendering)
  {
    var left, right := Normalize(a, rendering), Normalize(b, rendering);
    forall k | k in a && k in b
      ensures left[k] == right[k] <==>
              (if k == "claims" && a[k].Arr? && b[k].Arr? then SameClaimsById(a[k].items, b[k].items)
               else if k == "live_receipts" && a[k].Arr? && b[k].Arr?
               then SameByKey(a[k].items, b[k].items, ReceiptOrder(rendering))
               else a[k] == b[k])
    {
      NormalEntryExact(a, b, k, rendering);
    }
    if left == right {
      assert a.Keys == left.Keys == b.Keys;
    }
    if SameInOrder(a, b, rendering) {
      assert forall k | k in left :: left[k] == right[k];
    }
  }

  // With distinct ids and keys the order does not matter at all.
  lemma DistinctNormalFormExact(a: Document, b: Document, rendering: Rendering)
    requires Identified(a, rendering)
    ensures Normalize(a, rendering) == Normalize(b, rendering) <==> SameDocument(a, b)
  {
    if Normalize(a, rendering) == Normalize(b, rendering) {
      NormalFormForcesSame(a, b, rendering);
    }
    if SameDocument(a, b) {
      forall k | k in a
        ensures Normalize(a, rendering)[k] == Normalize(b, rendering)[k]
      {
        if k == "claims" && a[k].Arr? && b[k].Arr? {
          SortedClaimsExact(a[k].items, b[k].items);
        } else if k == "live_receipts" && a[k].Arr? && b[k].Arr? {
          ReceiptOrderIsPreorder(rendering);
          SortIgnoresOrder(a[k].items, b[k].items, ReceiptOrder(rendering));
        }
      }
      assert Normalize(a, rendering) == Normalize(b, rendering);
    }
  }

  lemma NormalizeWithoutHash(document: Document, rendering: Rendering)
    ensures Normalize(document, rendering) - {"manifest_hash"} == Normalize(document - {"manifest_hash"}, rendering)
  {
    assert "claims" != "manifest_hash" && "live_receipts" != "manifest_hash";
  }

  // The manifest hash identifies what the manifest says, whatever hash it already carries.
  lemma ManifestHashExact(a: Document, b: Document, rendering: Rendering)
    ensures ManifestHash(a, rendering) == ManifestHash(b, rendering) <==>
            SameInOrder(a - {"manifest_hash"}, b - {"manifest_hash"}, rendering)
    ensures ManifestHash(Normalize(a, rendering), rendering) == ManifestHash(a, rendering)
  {
    NormalizeIdempotent(a, rendering);
    NormalizeWithoutHash(a, rendering);
    NormalizeWithoutHash(b, rendering);
    NormalFormExact(a - {"manifest_hash"}, b - {"manifest_hash"}, rendering);
  }

  // The claim hash identifies the claim up to its stored hash and the order of its sources and nodes.
  lemma ClaimHashExact(a: map<string, Json>, b: map<string, Json>)
    ensures ClaimHash(a) == ClaimHash(b) <==> SameClaim(Obj(a - {"hash"}), Obj(b - {"hash"}))
    ensures ClaimHash(NormalFields(a)) == ClaimHash(a)
  {
    assert "hash" !in SET_FIELDS;
    NormalClaimExact(Obj(a - {"hash"}), Obj(b - {"hash"}));
    NormalClaimIdempotent(Obj(a));
    assert ClaimMaterial(a) == NormalFields(a - {"hash"});
    assert ClaimMaterial(b) == NormalFields(b - {"hash"});
  }

  // Two claims that share an id and differ: their order shows in the normal form.
  lemma SharedIdKeepsOrder(x: Json, y: Json)
    requires ClaimId(x) == ClaimId(y) && !SameClaim(x, y)
    ensures Sort(NormalClaims([x, y]), ClaimLeq) != Sort(NormalClaims([y, x]), ClaimLeq)
  {
    NormalClaimExact(x, y);
    NormalKeepsId(x);
    NormalKeepsId(y);
    SameIdExact(NormalClaim(x), NormalClaim(y));
    var first, second := NormalClaims([x, y]), NormalClaims([y, x]);
    assert first == [NormalClaim(x), NormalClaim(y)] && second == [NormalClaim(y), NormalClaim(x)];
    SortedIsFixed(first, ClaimLeq);
    SortedIsFixed(second, ClaimLeq);
    assert first[0] != second[0];
  }
}
