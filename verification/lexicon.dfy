/** The agent's fixed word lists (pages/1_AI_Agent.py). */
module Lexicon {
  import opened Chars

  /** `chain_mapping` in its insertion order: the key the user writes and
      the chain name the pools dataset uses. */
  const ChainTable: seq<(string, string)> := [
    ("ethereum", "Ethereum"),
    ("arbitrum", "Arbitrum"),
    ("solana", "Solana"),
    ("avalanche", "Avalanche"),
    ("polygon", "Polygon"),
    ("binance", "BSC"),
    ("bsc", "BSC"),
    ("optimism", "Optimism"),
    ("fantom", "Fantom"),
    ("cardano", "Cardano")
  ]

  /** The keys of `chain_mapping`, in the order the detection loop visits them. */
  function ChainKeys(): (keys: seq<string>)
    ensures |keys| == |ChainTable|
    ensures forall k :: 0 <= k < |keys| ==> keys[k] == ChainTable[k].0
  {
    seq(|ChainTable|, k requires 0 <= k < |ChainTable| => ChainTable[k].0)
  }

  /** `chain_mapping.get(key, default)`, searching `table` in order. */
  function LookupChain(table: seq<(string, string)>, key: string, default: string): (name: string)
    ensures (forall k :: 0 <= k < |table| ==> table[k].0 != key) ==> name == default
    ensures forall k :: (0 <= k < |table| && table[k].0 == key && forall j :: 0 <= j < k ==> table[j].0 != key)
                          ==> name == table[k].1
    ensures (exists k :: 0 <= k < |table| && table[k].0 == key) ==> (key, name) in table
  {
    if |table| == 0 then default
    else if table[0].0 == key then table[0].1
    else
      var name := LookupChain(table[1..], key, default);
      assert forall k :: 1 <= k < |table| ==> table[k] == table[1..][k - 1];
      name
  }

  /** The dataset's chain name for a stored blockchain value `b`
      (line 219): the mapping is consulted with `b` lower-cased and falls
      back to `b` itself. */
  function ChainName(b: string): (name: string)
    ensures Lower(b) !in ChainKeys() ==> name == b
    ensures Lower(b) in ChainKeys() ==> (Lower(b), name) in ChainTable
  {
    LookupChain(ChainTable, Lower(b), b)
  }

  /** Captures refused as a token or protocol name (lines 90 and 107). */
  const Stopwords: seq<string> := ["a", "el", "la", "los", "las", "de", "del"]

  /** Words whose presence anywhere in the query resets the agent (line 301). */
  const ResetWords: seq<string> := ["reset", "resetear", "borrar", "limpiar", "reiniciar"]
}
