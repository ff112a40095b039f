/** Data shapes of the vocabulary: the word categories and one vocabulary entry. */
module Types {

  /** An optional value; `None` stands for an absent (undefined) field. */
  datatype Option<T> = None | Some(value: T)

  /** The four word categories of the vocabulary. */
  datatype WordCategory = Noun | Verb | Particle | Adjective

  /** One vocabulary entry. `frequencyRank` is lower for more frequent words and may be absent. */
  datatype QuranWord = QuranWord(
    id: string,
    arabic: string,
    transliteration: string,
    english: string,
    category: WordCategory,
    rootWord: Option<string>,
    frequencyRank: Option<int>,
    exampleAyah: Option<string>,
    exampleTranslation: Option<string>)

  /** What a study session is started for: one category, or the mixed review `'All'`. */
  datatype Selection = All | Only(category: WordCategory)
}
