/** The keyword classifier that tags a session with topics. */
module Topics {
  import opened Text
  import opened Conversation
  import opened History

  /** The two Unicode tables the classifier consults. */
  datatype Alphabet = Alphabet(isAlphanumeric: char -> bool, toLowercase: string -> string)

  function Normalized(alphabet: Alphabet, word: string): string {
    alphabet.toLowercase(Trim(c => !alphabet.isAlphanumeric(c), word))
  }

  function Words(alphabet: Alphabet, pieces: seq<string>): set<string> {
    (set piece | piece in pieces :: Normalized(alphabet, piece)) - {""}
  }

  function TopicIf(words: set<string>, keywords: set<string>, topic: string): set<string> {
    if words !! keywords then {} else {topic}
  }

  function TopicsOfWords(words: set<string>): set<string> {
    TopicIf(words, {"work", "job", "career"}, "work")
    + TopicIf(words, {"family", "partner", "kids"}, "family")
    + TopicIf(words, {"code", "rust", "software", "programming"}, "software")
    + TopicIf(words, {"stressed", "overwhelmed", "sad", "angry"}, "emotional_context")
  }

  function ClassifyTopics(alphabet: Alphabet, message: string): set<string> {
    TopicsOfWords(Words(alphabet, SplitWhitespace(message)))
  }

  /** Some word of the message, stripped to letters and digits and in lower case, is a keyword. */
  ghost predicate Mentions(alphabet: Alphabet, message: string, keywords: set<string>) {
    exists piece :: HasWord(message, piece)
                    && alphabet.toLowercase(Trim(c => !alphabet.isAlphanumeric(c), piece)) in keywords
  }

  lemma {:induction false} KeywordFound(alphabet: Alphabet, message: string, keywords: set<string>)
    requires "" !in keywords
    ensures !(Words(alphabet, SplitWhitespace(message)) !! keywords) <==> Mentions(alphabet, message, keywords)
  {
    hide HasWord, SplitWhitespace;
    forall piece
      ensures piece in SplitWhitespace(message) <==> HasWord(message, piece)
    {
      WordsAreMaximalRuns(message, piece);
    }
    if Mentions(alphabet, message, keywords) {
      var piece :| HasWord(message, piece) && Normalized(alphabet, piece) in keywords;
      assert Normalized(alphabet, piece) in Words(alphabet, SplitWhitespace(message));
    }
    if word :| word in Words(alphabet, SplitWhitespace(message)) && word in keywords {
      var piece :| piece in SplitWhitespace(message) && Normalized(alphabet, piece) == word;
      assert HasWord(message, piece);
    }
  }

  /** Exactly which topics a message has. */
  lemma {:induction false} TopicsFound(alphabet: Alphabet, message: string)
    ensures "work" in ClassifyTopics(alphabet, message) <==> Mentions(alphabet, message, {"work", "job", "career"})
    ensures "family" in ClassifyTopics(alphabet, message) <==> Mentions(alphabet, message, {"family", "partner", "kids"})
    ensures "software" in ClassifyTopics(alphabet, message)
       <==> Mentions(alphabet, message, {"code", "rust", "software", "programming"})
    ensures "emotional_context" in ClassifyTopics(alphabet, message)
       <==> Mentions(alphabet, message, {"stressed", "overwhelmed", "sad", "angry"})
    ensures ClassifyTopics(alphabet, message) <= {"work", "family", "software", "emotional_context"}
  {
    hide Mentions, Words, SplitWhitespace;
    KeywordFound(alphabet, message, {"work", "job", "career"});
    KeywordFound(alphabet, message, {"family", "partner", "kids"});
    KeywordFound(alphabet, message, {"code", "rust", "software", "programming"});
    KeywordFound(alphabet, message, {"stressed", "overwhelmed", "sad", "angry"});
  }

  lemma {:induction false} TopicsOfUnion(a: set<string>, b: set<string>)
    ensures TopicsOfWords(a + b) == TopicsOfWords(a) + TopicsOfWords(b)
  {
  }

  /** Classifying two messages one after the other finds what classifying their text joined by
      white space finds: no topic arises from, or is lost to, where a message ends. */
  lemma {:induction false} TopicsOfJoinedMessages(alphabet: Alphabet, a: string, w: char, b: string)
    requires IsWhiteSpace(w)
    ensures ClassifyTopics(alphabet, a + [w] + b)
         == ClassifyTopics(alphabet, a) + ClassifyTopics(alphabet, b)
  {
    SplitOfJoin(a, w, b);
    var x, y := SplitWhitespace(a), SplitWhitespace(b);
    assert Words(alphabet, x + y) == Words(alphabet, x) + Words(alphabet, y);
    TopicsOfUnion(Words(alphabet, x), Words(alphabet, y));
  }

  lemma {:induction false} NoTopicsInSilence(alphabet: Alphabet)
    ensures ClassifyTopics(alphabet, "") == {}
  {
    assert Words(alphabet, []) == {};
  }

  /** Classifying messages one by one finds what classifying all of them as one text finds. */
  lemma {:induction false} TopicsOfConversation(alphabet: Alphabet, said: seq<string>)
    ensures TopicsOf(m => ClassifyTopics(alphabet, m), said)
         == ClassifyTopics(alphabet, Spoken(said))
  {
    if said == [] {
      NoTopicsInSilence(alphabet);
    } else {
      var front, last := said[..|said| - 1], said[|said| - 1];
      TopicsOfConversation(alphabet, front);
      assert Spoken(said) == Spoken(front) + ['\n'] + last;
      TopicsOfJoinedMessages(alphabet, Spoken(front), '\n', last);
    }
  }

  function Production(alphabet: Alphabet, backendId: string): Rules {
    Rules(m => ClassifyTopics(alphabet, m), backendId)
  }

  /** The topics a session has accumulated after any run of turns and resets are those of
      everything its user said since the last reset, read as one text. */
  lemma {:induction false} TopicsAgree(alphabet: Alphabet, backendId: string, id: SessionId, ops: seq<Op>)
    requires Sound(ops)
    ensures Replay(Production(alphabet, backendId), id, ops).userModel.topics
         == ClassifyTopics(alphabet, Spoken(Said(ops)))
  {
    TopicsAccumulate(Production(alphabet, backendId), id, ops);
    TopicsOfConversation(alphabet, Said(ops));
  }

  function Spoken(messages: seq<string>): string {
    if messages == [] then "" else Spoken(messages[..|messages| - 1]) + "\n" + messages[|messages| - 1]
  }
}
