// The static pool of stimuli the trainer draws from.

module Pool {
  /** One memorisable item of pairs.json: a two-letter code, a word and an image path. */
  datatype Stimulus = Stimulus(pair: string, word: string, image: string)
}
