/** The logical blocks of a sequence hold its tokens, in order, in full blocks but for the last one. */
module LogicalBlocks {
  import opened Basics
  import opened Sequences

  const BLANK: Token := -1

  class LogicalTokenBlock {
    const blockSize: nat
    const tokenIds: array<Token>
    var numTokens: nat

    constructor (size: nat)
      ensures blockSize == size && Valid() && Contents() == [] && fresh(tokenIds)
    {
      blockSize := size;
      tokenIds := new Token[size](_ => BLANK);
      numTokens := 0;
    }

    ghost predicate Valid()
      reads this
    {
      tokenIds.Length == blockSize && numTokens <= blockSize
    }

    /** `get_token_ids`. */
    ghost function Contents(): seq<Token>
      requires Valid()
      reads this, tokenIds
    {
      tokenIds[..numTokens]
    }

    function IsFull(): bool
      reads this
    {
      numTokens == blockSize
    }

    function GetNumEmptySlots(): int
      reads this
    {
      blockSize - numTokens
    }

    /** Writes the tokens behind those that are there. */
    method AppendTokens(tokens: seq<Token>)
      requires Valid() && |tokens| <= GetNumEmptySlots()
      modifies this, tokenIds
      ensures Valid() && Contents() == old(Contents()) + tokens
    {
      var i := 0;
      while i < |tokens|
        invariant i <= |tokens| && numTokens == old(numTokens) && Valid()
        invariant tokenIds[..numTokens + i] == old(Contents()) + tokens[..i]
      {
        tokenIds[numTokens + i] := tokens[i];
        i := i + 1;
      }
      numTokens := numTokens + |tokens|;
    }
  }

  /** The tokens of block `i` when `tokens` are laid out in blocks of `size`. */
  function Chunk(tokens: seq<Token>, size: nat, i: nat): seq<Token>
    requires i * size <= |tokens|
  {
    if (i + 1) * size <= |tokens| then tokens[i * size..(i + 1) * size] else tokens[i * size..]
  }

  class LogicalSequence {
    const blockSize: nat
    var blocks: seq<LogicalTokenBlock>
    /** All tokens appended so far: the prompt, then the outputs. */
    ghost var tokens: seq<Token>
    ghost var repr: set<object>

    constructor (size: nat)
      requires size > 0
      ensures Valid() && fresh(repr) && blockSize == size && tokens == []
    {
      blockSize := size;
      blocks, tokens := [], [];
      repr := {this};
      new;
      CeilDivBounds(0, size);
    }

    /** There are just enough blocks, no two share storage, and block `i` holds its chunk of the tokens.
        So flattening the blocks gives the tokens, and every block but the last is full. */
    ghost predicate Valid()
      reads this, repr
    {
      this in repr && blockSize > 0 && Laid(CeilDiv(|tokens|, blockSize))
    }

    /** The last block has room; it is empty when the tokens fill the blocks before it. */
    ghost predicate Open()
      reads this, repr
    {
      this in repr && blockSize > 0 && Laid(|tokens| / blockSize + 1)
    }

    ghost predicate Laid(n: nat)
      requires this in repr
      reads this, repr
    {
      && blockSize > 0 && |blocks| == n
      && (forall i, j :: 0 <= i < j < |blocks| ==> blocks[i] != blocks[j] && blocks[i].tokenIds != blocks[j].tokenIds)
      && (forall i :: 0 <= i < |blocks| ==> blocks[i] in repr && blocks[i].tokenIds in repr && Holds(i))
    }

    ghost predicate Holds(i: nat)
      requires this in repr && i < |blocks| && blocks[i] in repr && blocks[i].tokenIds in repr
      reads this, repr
    {
      && blocks[i].blockSize == blockSize && blocks[i].Valid()
      && i * blockSize <= |tokens| && blocks[i].Contents() == Chunk(tokens, blockSize, i)
    }

    /** Every block but the last is full. */
    lemma AllButLastFull(i: nat)
      requires Valid() && i < |blocks| - 1
      ensures blocks[i].IsFull()
    {
      assert Holds(i);
      CeilDivBounds(|tokens|, blockSize);
      MulMono(i + 1, |blocks| - 1, blockSize);
    }

    /** Appends an empty block if there is none or the last one is full. */
    method OpenLast()
      requires Valid()
      modifies this
      ensures Open() && tokens == old(tokens) && fresh(repr - old(repr)) && old(repr) <= repr
    {
      ghost var n := |blocks|;
      assert n > 0 ==> Holds(n - 1);
      BlockCount(tokens, blockSize, n);
      if |blocks| == 0 || blocks[|blocks| - 1].IsFull() {
        AddBlock();
      }
    }

    method AddBlock()
      requires Valid() && |tokens| == |blocks| * blockSize
      modifies this
      ensures Open() && tokens == old(tokens) && fresh(repr - old(repr)) && old(repr) <= repr
    {
      ghost var was := blocks;
      ghost var n := |was|;
      LastBlock(n * blockSize, blockSize);
      ModZero(n, blockSize);
      assert Chunk(tokens, blockSize, n) == [] by { MulMono(n, n + 1, blockSize); }
      var b := new LogicalTokenBlock(blockSize);
      blocks := blocks + [b];
      repr := repr + {b, b.tokenIds};
      forall i | 0 <= i < |blocks| ensures blocks[i] in repr && blocks[i].tokenIds in repr && Holds(i) {
        if i < n {
          assert old(Holds(i)) && blocks[i] == was[i];
        }
      }
    }

    /** Fills the last block as far as it goes. */
    method FillLast(piece: seq<Token>)
      requires Open() && 0 < |piece| <= blocks[|blocks| - 1].GetNumEmptySlots()
      modifies repr
      ensures Valid() && tokens == old(tokens) + piece && repr == old(repr)
    {
      hide Chunk, CeilDiv;
      var n := |blocks| - 1;
      assert Holds(n);
      LastChunk(tokens, piece, blockSize);
      blocks[n].AppendTokens(piece);
      tokens := tokens + piece;
      assert Holds(n);
      forall i | 0 <= i < n ensures Holds(i) {
        assert old(Holds(i));
        EarlierChunk(old(tokens), piece, blockSize, i);
      }
    }

    /** `_append_tokens_to_blocks`. */
    method AppendTokens(more: seq<Token>)
      requires Valid()
      modifies repr
      ensures Valid() && tokens == old(tokens) + more && fresh(repr - old(repr))
    {
      var cursor := 0;
      assert old(tokens) + Taken(more, 0) == old(tokens);
      while cursor < |more|
        invariant Valid() && fresh(repr - old(repr)) && tokens == old(tokens) + Taken(more, cursor)
        decreases |more| - cursor
      {
        cursor := AppendPiece(more, cursor);
      }
    }

    /** Fills one block. */
    method AppendPiece(more: seq<Token>, cursor: nat) returns (next: nat)
      requires Valid() && cursor < |more|
      modifies repr
      ensures Valid() && fresh(repr - old(repr)) && cursor < next
      ensures forall t :: old(tokens) == t + Taken(more, cursor) ==> tokens == t + Taken(more, next)
    {
      OpenLast();
      var last := blocks[|blocks| - 1];
      assert Holds(|blocks| - 1);
      LastHasRoom(tokens, blockSize);
      next := cursor + last.GetNumEmptySlots();
      var piece := if next < |more| then more[cursor..next] else more[cursor..];
      FillLast(piece);
      TakenNext(more, cursor, next, piece);
    }
  }

  /** Python's `s[:n]` for a position that may lie behind the end. */
  function Taken(s: seq<Token>, n: nat): seq<Token> {
    if n < |s| then s[..n] else s
  }

  lemma TakenNext(more: seq<Token>, cursor: nat, next: nat, piece: seq<Token>)
    requires cursor < |more| && cursor < next && piece == if next < |more| then more[cursor..next] else more[cursor..]
    ensures forall t :: t + Taken(more, cursor) + piece == t + Taken(more, next)
  {
    assert Taken(more, cursor) + piece == Taken(more, next);
    forall t ensures t + Taken(more, cursor) + piece == t + Taken(more, next) {
      assert t + Taken(more, cursor) + piece == t + (Taken(more, cursor) + piece);
    }
  }

  lemma LastBlock(n: nat, b: nat)
    requires b > 0
    ensures CeilDiv(n, b) == n / b + (if n % b == 0 then 0 else 1)
    ensures n % b == 0 ==> (n / b) * b == n
    ensures n / b * b <= n < (n / b + 1) * b
  {
    assert n == (n / b) * b + n % b;
    CeilDivBounds(n, b);
    var c, q := CeilDiv(n, b), n / b;
    if c <= q - 1 { MulMono(c, q - 1, b); }
    if q + 2 <= c { MulMono(q + 2, c, b); }
    if n % b == 0 && q + 1 <= c { MulMono(q + 1, c, b); }
    if n % b != 0 && c <= q { MulMono(c, q, b); }
  }

  lemma LastHasRoom(tokens: seq<Token>, b: nat)
    requires b > 0
    ensures (|tokens| / b) * b <= |tokens| && |Chunk(tokens, b, |tokens| / b)| < b
  {
    LastBlock(|tokens|, b);
  }

  lemma ModZero(n: nat, b: nat)
    requires b > 0
    ensures (n * b) / b == n && (n * b) % b == 0 && CeilDiv(n * b, b) == n
  {
    LastBlock(n * b, b);
    var q := (n * b) / b;
    if q + 1 <= n { MulMono(q + 1, n, b); }
    if n + 1 <= q { MulMono(n + 1, q, b); }
  }

  /** With `n` blocks for the tokens, the last one is full exactly when the tokens fill all `n`. */
  lemma BlockCount(tokens: seq<Token>, b: nat, n: nat)
    requires b > 0 && n == CeilDiv(|tokens|, b)
    ensures n == 0 ==> tokens == []
    ensures n > 0 ==> (n - 1) * b <= |tokens|
    ensures n > 0 && |Chunk(tokens, b, n - 1)| == b ==> |tokens| == n * b
    ensures n > 0 && |Chunk(tokens, b, n - 1)| != b ==> n == |tokens| / b + 1
  {
    LastBlock(|tokens|, b);
    CeilDivBounds(|tokens|, b);
  }

  lemma LastChunk(tokens: seq<Token>, piece: seq<Token>, b: nat)
    requires b > 0
    requires (|tokens| / b) * b <= |tokens| && 0 < |piece| <= b - |Chunk(tokens, b, |tokens| / b)|
    ensures Chunk(tokens + piece, b, |tokens| / b) == Chunk(tokens, b, |tokens| / b) + piece
    ensures CeilDiv(|tokens + piece|, b) == |tokens| / b + 1
  {
    var q := |tokens| / b;
    LastBlock(|tokens|, b);
    ChunkGrows(tokens, piece, b, q);
    CountGrows(|tokens + piece|, b, q);
  }

  lemma ChunkGrows(tokens: seq<Token>, piece: seq<Token>, b: nat, q: nat)
    requires q * b <= |tokens| < (q + 1) * b && |piece| <= b - |Chunk(tokens, b, q)|
    ensures |tokens + piece| <= (q + 1) * b
    ensures Chunk(tokens + piece, b, q) == Chunk(tokens, b, q) + piece
  {
    assert Chunk(tokens, b, q) == tokens[q * b..];
    assert (tokens + piece)[q * b..] == tokens[q * b..] + piece;
  }

  lemma CountGrows(n: nat, b: nat, q: nat)
    requires b > 0 && q * b < n <= (q + 1) * b
    ensures CeilDiv(n, b) == q + 1
  {
    CeilDivBounds(n, b);
    var c := CeilDiv(n, b);
    if c <= q { MulMono(c, q, b); }
    if q + 2 <= c { MulMono(q + 2, c, b); }
  }

  lemma EarlierChunk(tokens: seq<Token>, piece: seq<Token>, b: nat, i: nat)
    requires b > 0 && i < |tokens| / b && i * b <= |tokens|
    ensures i * b <= |tokens + piece| && Chunk(tokens + piece, b, i) == Chunk(tokens, b, i)
  {
    LastBlock(|tokens|, b);
    MulMono(i + 1, |tokens| / b, b);
  }
}
