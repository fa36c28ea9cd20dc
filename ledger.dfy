/** A ledger entry: one monetary event, immutable except for its category
    (which categorization may rewrite) and its de-duplicated tag list. */
module Ledger {
  import opened Types

  predicate NoDuplicates(s: seq<string>)
  {
    forall i, j :: 0 <= i < j < |s| ==> s[i] != s[j]
  }

  /** The tag list after `addTag(t)`. */
  function WithTag(tags: seq<string>, t: string): (r: seq<string>)
    ensures t in r
    ensures forall x :: x in r <==> x in tags || x == t
    ensures NoDuplicates(tags) ==> NoDuplicates(r)
    ensures |tags| <= |r| <= |tags| + 1 && r[..|tags|] == tags
  {
    if t in tags then tags else tags + [t]
  }

  /** Adding the same tag twice is the same as adding it once. */
  lemma WithTagIdempotent(tags: seq<string>, t: string)
    ensures WithTag(WithTag(tags, t), t) == WithTag(tags, t)
  {
  }

  class Transaction {
    const id: string
    const amount: real
    const description: string
    const date: Date
    const kind: TransactionType
    var category: CategoryType
    const accountId: string
    var tags: seq<string>

    /** The tag list never holds a tag twice. */
    ghost predicate Valid()
      reads this
    {
      NoDuplicates(tags)
    }

    constructor (id: string, amount: real, description: string, date: Date,
                 kind: TransactionType, category: CategoryType, accountId: string)
      ensures Valid()
      ensures this.id == id && this.amount == amount && this.description == description
      ensures this.date == date && this.kind == kind && this.category == category
      ensures this.accountId == accountId && tags == []
    {
      this.id := id;
      this.amount := amount;
      this.description := description;
      this.date := date;
      this.kind := kind;
      this.category := category;
      this.accountId := accountId;
      tags := [];
    }

    /** What the engines read of this transaction. */
    function Snapshot(): (t: Tx)
      reads this
      ensures t.category == category && t.amount == amount && t.kind == kind
      ensures t.description == description && t.date == date
    {
      Tx(id, amount, description, date, kind, category, accountId)
    }

    /** A copy of the tag list. */
    method GetTags() returns (r: seq<string>)
      ensures r == tags
    {
      r := tags;
    }

    method AddTag(t: string)
      modifies this`tags
      ensures old(Valid()) ==> Valid()
      ensures tags == WithTag(old(tags), t)
    {
      if t !in tags {
        tags := tags + [t];
      }
    }
  }
}
