/** The high-score file: one integer written as decimal text to
    `<persistent data path>/score.txt`. The file system is a store from
    paths to whole-file contents; a path that is not in the store is a file
    that does not exist. */
module ScoreFile {
  import opened Optional
  import Decimal

  type Store = map<string, string>

  /** The one path both operations use. */
  function ScorePath(dataPath: string): string {
    dataPath + "/score.txt"
  }

  /** `SaveScoreToFile`: the score file's whole content becomes the text of
      `score`; every other file keeps its content. */
  function SaveScoreToFile(store: Store, dataPath: string, score: int): (r: Store)
    ensures ScorePath(dataPath) in r && r[ScorePath(dataPath)] == Decimal.Encode(score)
    ensures r.Keys == store.Keys + {ScorePath(dataPath)}
    ensures forall p :: p in store && p != ScorePath(dataPath) ==> r[p] == store[p]
  {
    store[ScorePath(dataPath) := Decimal.Encode(score)]
  }

  /** `LoadScoreFromFile`: the parsed content of the score file, or 0 when
      the file is missing or does not parse. */
  function LoadScoreFromFile(store: Store, dataPath: string): (r: int)
    ensures Decimal.IsInt32(r)
  {
    var path := ScorePath(dataPath);
    if path in store then
      match Decimal.Parse(store[path])
      case Some(score) => score
      case None => 0
    else 0
  }

  /** With no score file the loaded score is 0. */
  lemma LoadMissing(store: Store, dataPath: string)
    requires ScorePath(dataPath) !in store
    ensures LoadScoreFromFile(store, dataPath) == 0
  {
  }

  /** A score file whose content does not parse loads as 0. */
  lemma LoadUnparsable(store: Store, dataPath: string)
    requires ScorePath(dataPath) in store
    requires Decimal.Parse(store[ScorePath(dataPath)]).None?
    ensures LoadScoreFromFile(store, dataPath) == 0
  {
  }

  /** A score file whose content parses loads as the parsed value. */
  lemma LoadParsed(store: Store, dataPath: string, n: int)
    requires ScorePath(dataPath) in store
    requires Decimal.Parse(store[ScorePath(dataPath)]) == Some(n)
    ensures LoadScoreFromFile(store, dataPath) == n
  {
  }

  /** Loading after saving `n` gives `n`, whatever the store held before. */
  lemma SaveThenLoad(store: Store, dataPath: string, n: int)
    requires Decimal.IsInt32(n)
    ensures LoadScoreFromFile(SaveScoreToFile(store, dataPath, n), dataPath) == n
  {
    Decimal.RoundTrip(n);
  }

  /** A later save replaces an earlier one completely. */
  lemma SaveOverwrites(store: Store, dataPath: string, a: int, b: int)
    ensures SaveScoreToFile(SaveScoreToFile(store, dataPath, a), dataPath, b) == SaveScoreToFile(store, dataPath, b)
  {
  }

  /** The missing file, then a save of 42, then a load: 0 first, 42 after. */
  lemma MissingThenSaved(dataPath: string)
    ensures LoadScoreFromFile(map[], dataPath) == 0
    ensures LoadScoreFromFile(SaveScoreToFile(map[], dataPath, 42), dataPath) == 42
  {
    SaveThenLoad(map[], dataPath, 42);
  }
}
