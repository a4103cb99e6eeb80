/** What is hashed. The code hashes one string, in which a zero character stands between the parts;
    the model keeps the parts. As long as no part but the last holds a zero that is the same. */
module HashLaws {
  import opened Chunker
  import opened Index

  /** What the id of a chunk is the hash of. */
  function IDInput(url: string, embeddingText: string): string {
    url + "\0" + embeddingText
  }

  /** What the hash of a document is taken of. */
  function DocumentInput(v: Version): string {
    v.fingerprint + "\0" + v.doc.title + "\0" + v.doc.content
  }

  lemma {:induction false} ZeroAfter(a: string, x: string, s: string)
    requires '\0' !in a && s == a + "\0" + x
    ensures |a| < |s| && s[|a|] == '\0' && (forall i | 0 <= i < |a| :: s[i] != '\0')
    ensures s[..|a|] == a && s[|a| + 1..] == x
  {
  }

  lemma {:induction false} FirstZero(a: string, x: string, b: string, y: string)
    requires '\0' !in a && '\0' !in b && a + "\0" + x == b + "\0" + y
    ensures a == b && x == y
  {
    var s := a + "\0" + x;
    ZeroAfter(a, x, s);
    ZeroAfter(b, y, s);
  }

  /** Two chunks have the same id if and only if the same string is hashed for them. */
  lemma {:induction false} SameIDIff(c: Document, s: string, i: nat, d: Document, t: string, j: nat)
    requires '\0' !in c.url && '\0' !in d.url
    ensures ChunkOf(c, s, i).id == ChunkOf(d, t, j).id <==>
      IDInput(c.url, EmbeddingText(c.title, s)) == IDInput(d.url, EmbeddingText(d.title, t))
  {
    var x, y := EmbeddingText(c.title, s), EmbeddingText(d.title, t);
    if IDInput(c.url, x) == IDInput(d.url, y) {
      FirstZero(c.url, x, d.url, y);
    }
  }

  /** So for the hash that lets a document be skipped. */
  lemma {:induction false} SameHashIff(v: Version, w: Version)
    requires '\0' !in v.fingerprint && '\0' !in w.fingerprint && '\0' !in v.doc.title && '\0' !in w.doc.title
    ensures HashOf(v) == HashOf(w) <==> DocumentInput(v) == DocumentInput(w)
    ensures HashOf(v) == HashOf(w) <==>
      v.fingerprint == w.fingerprint && v.doc.title == w.doc.title && v.doc.content == w.doc.content
  {
    var x, y := v.doc.title + "\0" + v.doc.content, w.doc.title + "\0" + w.doc.content;
    assert DocumentInput(v) == v.fingerprint + "\0" + x && DocumentInput(w) == w.fingerprint + "\0" + y;
    if DocumentInput(v) == DocumentInput(w) {
      FirstZero(v.fingerprint, x, w.fingerprint, y);
      FirstZero(v.doc.title, v.doc.content, w.doc.title, w.doc.content);
    }
  }

  /** A zero can be moved from a title to the content without changing what is hashed. */
  lemma {:induction false} ZeroInTitle(v: Version, title: string, content: string)
    ensures var (a, b) := (v.(doc := v.doc.(title := title + "\0", content := content)),
        v.(doc := v.doc.(title := title, content := "\0" + content)));
      DocumentInput(a) == DocumentInput(b) && HashOf(a) != HashOf(b)
  {
    var before := v.fingerprint + "\0" + title;
    assert v.fingerprint + "\0" + (title + "\0") + "\0" + content == before + "\0" + "\0" + content;
    assert before + "\0" + ("\0" + content) == before + "\0" + "\0" + content;
    assert |title + "\0"| == |title| + 1;
  }
}
