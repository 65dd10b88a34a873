/**
 The document store (src/stores/documentStore.ts): a back-reference to the
 root store and a click counter with one setter. The root store's own type
 is a type parameter, since rootStore.ts is not part of this model.
 */
module DocumentStores {

  datatype DocumentStore<Root> = DocumentStore(root: Root, clicks: int)

  /** The largest integer a JavaScript number holds exactly (2^53 - 1). */
  const MaxSafeInteger: int := 9007199254740991

  /** Overwrites the counter; the root reference stays as it was. */
  function SetClicks<Root>(s: DocumentStore<Root>, n: int): (s': DocumentStore<Root>)
    ensures s'.clicks == n
    ensures s'.root == s.root
  {
    s.(clicks := n)
  }

  /** A store for `root` whose counter starts at zero. */
  function NewDocumentStore<Root>(root: Root): (s: DocumentStore<Root>)
    ensures s.clicks == 0
    ensures s.root == root
  {
    DocumentStore(root, 0)
  }

  /** A fresh store is the same as any store for that root with its counter set to zero. */
  lemma NewDocumentStoreIsReset<Root>(s: DocumentStore<Root>)
    ensures NewDocumentStore(s.root) == SetClicks(s, 0)
  {
  }

  /** Of two consecutive writes only the second is visible. */
  lemma SetClicksLastWriteWins<Root>(s: DocumentStore<Root>, a: int, b: int)
    ensures SetClicks(SetClicks(s, a), b) == SetClicks(s, b)
  {
  }

  /** Writing the same value twice is writing it once. */
  lemma SetClicksIdempotent<Root>(s: DocumentStore<Root>, n: int)
    ensures SetClicks(SetClicks(s, n), n) == SetClicks(s, n)
  {
  }

  /** Writing back the current count changes nothing. */
  lemma SetClicksCurrentIsNoOp<Root>(s: DocumentStore<Root>)
    ensures SetClicks(s, s.clicks) == s
  {
  }

  /**
   The home page's `+` and `-` buttons write `clicks + 1` and `clicks - 1`;
   one of each, in either order, restores the store while every value stays
   within the exactly representable integers.
   */
  lemma IncrementThenDecrementRestores<Root>(s: DocumentStore<Root>)
    requires -MaxSafeInteger <= s.clicks - 1 && s.clicks + 1 <= MaxSafeInteger
    ensures var t := SetClicks(s, s.clicks + 1); SetClicks(t, t.clicks - 1) == s
    ensures var t := SetClicks(s, s.clicks - 1); SetClicks(t, t.clicks + 1) == s
  {
  }
}
