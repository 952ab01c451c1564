# Cat mood quiz and tarot deck: a Dafny model

`main.py` is a Tkinter application with two parts. The first is a five-question quiz,
"which cat are you today". Each answer scores 1 to 5 points. The total is mapped to one of
five cat types through a table of score ranges. The second part is a tarot reading. It
builds a deck of cards from a catalog of `(name, id)` entries, pulls three cards at random
without replacement, and sends their values to a prediction service. Both parts are
classes in the same file. The entry point at the end of `main.py` starts only the tarot
app, because the line that would create the quiz app is commented out.

This project models the logic under the widgets, in three modules:

- `Common` (`common.dfy`) holds sequence helpers: `Option`, `Sum`, `Distinct`, and
  `RemoveFirst`, which is Python's `list.remove`.
- `MoodQuiz` (`mood_quiz.dfy`) holds the `QUESTIONS` and `CAT_TYPES` tables and the
  classification `get_cat_type`, written as the pure function `GetCatType`. The quiz state
  of `CatMoodTestApp` is the class `QuizSession`, with the fields `currentQuestion`,
  `totalScore` and `answers`. Its methods `Start` and `Answer` update those fields and
  return the screen the window shows next.
- `Tarot` (`tarot.dfy`) holds the class `TarotCard`, the class `Deck` and the class
  `TarotApp`. `Deck` is a sequence field that `PullCard` reassigns. `TarotApp.StartTest`
  is the three-pull loop of `start_test`.

A few modelling choices follow the code:

- `TarotCard` is a class, not a value. The source defines no equality for it, so two cards
  are equal only when they are the same object. So `cards.remove(card)` removes exactly the
  object `random.choice` picked. Also, the three drawn cards are distinct objects even when
  the catalog lists a name twice. `Deck.Valid()` says that no object appears twice in the
  deck. The constructor establishes this, because every card is freshly allocated, and
  `PullCard` preserves it.
- `random.choice` is an arbitrary position of the deck (`var i :| 0 <= i < |cards|`).
  `RemoveFirstAt` proves that `RemoveFirst` (the model of `list.remove`) then removes
  exactly that position. On an empty deck `random.choice` raises `IndexError`. The model
  returns `None` and leaves the deck as it is.
- In `start_test` that exception would end the draw loop early. The cards pulled so far
  stay out of the deck and stay in `cards_for_prediction`. `StartTest` models this by
  returning `ok == false`.
- `answer_question` checks nothing about its argument, so `Answer` has no precondition.
  The option buttons only ever pass a score of the current question. `OnTrack()` states
  that condition, and `Answer` preserves it when it holds.

Some things `main.py` does not do:

- The deck accepts any catalog, including an empty one or one with repeated names.
  Nothing validates the catalog.
- Pulling from an empty deck fails only through the `IndexError` that `random.choice`
  raises. The deck has no error of its own.
- The deck has no reset operation. A `TarotApp` builds its deck once, and `start_test`
  pulls from it.
- A total outside 5..25 falls back to the first cat type (the sleepy one). This happens
  for totals above 25 too, not only below 5.
- Nothing is saved. The file keeps no history or statistics and does no translation. The
  prediction request has no fallback if it fails.

## Model

| member | source | states |
|---|---|---|
| `MoodQuiz.FirstMatch` | main.py:478-481 | the scan returns the position of an entry whose range holds the total, with no earlier entry holding it; it returns nothing exactly when no entry holds it |
| `MoodQuiz.GetCatType` | main.py:472-484 | the result is one of the cat types; if some range holds the total, the result's range holds it; if none does, the result is the first cat type |
| `MoodQuiz.ContiguousOrdered` | main.py:93-144 | in a table of adjacent ranges, every range lies wholly below every later one |
| `MoodQuiz.AboveMissedRanges` | main.py:478-481 | if no range of an adjacent table holds a total at or above its lower end, the total lies above every range |
| `MoodQuiz.ContiguousPartition` | main.py:93-144 | a table of adjacent ranges from lo to hi partitions [lo, hi]: a total is in some range if and only if it is in [lo, hi], and never in two |
| `MoodQuiz.CatTypesContiguous` | main.py:93-144 | the five cat-type ranges are non-empty and adjacent, and they run from 5 to 25 |
| `MoodQuiz.GetCatTypeExactlyOne` | main.py:472-484 | for every total in 5..25, exactly one cat-type range holds it, and get_cat_type returns that cat type |
| `MoodQuiz.GetCatTypeFallback` | main.py:483-484 | a total outside 5..25 lies in no range, and get_cat_type returns the first cat type |
| `MoodQuiz.OptionScoresInRange` | main.py:37-88 | every option score of every question is between 1 and 5 |
| `MoodQuiz.AnswersTotalInRange` | main.py:37-88 | answers that are option scores of their questions sum to between 1 and 5 points per answer, so five of them sum to 5..25 |
| `Common.SumAppend` | main.py:456-459 | adding a score to the total and appending it to the answers keeps the total equal to the sum of the answers |
| `Common.SumBounds` | main.py:518 | a sum of n values, each in [lo, hi], lies in [n * lo, n * hi] |
| `MoodQuiz.QuizSession.constructor` | main.py:293-295 | a new session has question index 0, total 0 and no answers, and is on track |
| `MoodQuiz.QuizSession.Start` | main.py:364-374 | start_test resets the index, the total and the answers, and shows question 0 |
| `MoodQuiz.QuizSession.Answer` | main.py:450-470 | adds the score to the total, appends it to the answers and advances the index; shows the result exactly when the index reaches 5; preserves total == sum(answers) and index == number of answers; from an on-track state with a valid option, a result shows a total in 5..25 and the one cat type whose range holds it |
| `Common.RemoveFirst` | main.py:678 | list.remove fails (Python's ValueError) exactly when the value is absent; otherwise the list loses one element, and one occurrence of that value leaves the multiset |
| `Common.RemoveFirstSplits` | main.py:678 | when the value is present, list.remove cuts out its first occurrence (no earlier position holds it) and keeps every other element in order |
| `Common.RemoveFirstAt` | main.py:677-678 | in a list without repeats, removing the value picked at position i removes exactly position i and keeps the other elements in order |
| `Common.DistinctRemoveAt` | main.py:677-678 | removing one position from a list without repeats leaves a list without repeats that no longer holds the removed value |
| `Tarot.TarotCard.constructor` | main.py:683-686 | a card holds the given name, value and image path |
| `Tarot.NameOfImagePath` | main.py:661-672 | the inverse of the image-path convention: a name it recovers rebuilds the given path |
| `Tarot.ImagePathRoundTrip` | main.py:672 | the name is recovered from the path built as BASEPATH + name + '.png' |
| `Tarot.ImagePathInjective` | main.py:672 | cards with different names get different image paths |
| `Tarot.Deck.constructor` | main.py:663-672 | the deck holds one fresh card per catalog entry, in catalog order, with value = id and image path = 'images/tarot/png/' + name + '.png'; no card object appears twice |
| `Tarot.Deck.PullCard` | main.py:674-679 | on a non-empty deck, returns the card at some position and leaves the deck with exactly that position removed and the rest in order; the deck shrinks by one and no longer holds the card; on an empty deck, returns nothing and changes nothing |
| `Tarot.TarotApp.constructor` | main.py:737 | the app's deck holds one card per catalog entry, in order, with the entry's name, value = id and image path 'images/tarot/png/' + name + '.png'; nothing is drawn yet |
| `Tarot.TarotApp.StartTest` | main.py:812-817 | with at least 3 cards, pulls exactly 3 pairwise-distinct cards out of the deck (deck shrinks by 3); with fewer, pulls all of them and reports failure; drawn cards plus remaining deck are always exactly the old deck |

## Left out

- Widgets, screens, layout, hover effects and `mainloop` are user interface only. The
  model returns a `Screen` value where the source builds a screen.
- The progress bar width is float arithmetic used only for display.
- Loading and scaling the cat pictures and the card images is file and image I/O.
- `get_prediction` is an HTTP request to an external service. Its result is the raw JSON.
  The model stops at the three drawn cards.
- Reading `markup.json` is file I/O. `Deck` and `TarotApp` take the parsed list of
  `(name, id)` entries as a parameter instead.
- The Tcl/Tk environment setup at import time is start-up wiring only.
- `Layout` and `append_card` are never used by the program.
- The question prompts, the option texts and the cat-type descriptions are display text.
  Only the option scores, the cat-type names, ranges, colours and image folders are modelled.
- The model has no uniform distribution. `PullCard` may return any card of the deck,
  which is what every run of `random.choice` does.
- Tarot.TarotApp.StartTest: states which cards were drawn as a multiset and that they are
  pairwise distinct. It does not state which pull filled which of the three positions,
  because the pick inside `PullCard` is nondeterministic.
