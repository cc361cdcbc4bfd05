/** The game's documented example scores and validation outcomes, stated as
    lemmas about the model. */
module MastermindExamples {
  import opened Mastermind

  /** The secret scored against itself is all perfect matches. */
  lemma PerfectGuessExample()
    ensures Evaluate("RGBY", "RGBY") == Score(4, 0)
  {
    SelfScore("RGBY");
  }

  /** One perfect match and no colour match. */
  lemma SinglePerfectExample()
    ensures Evaluate("RGBY", "RWWW") == Score(1, 0)
  {
    assert "RWWW"[..1] == "R";
    assert "RWWW"[..2] == "RW";
    assert "RWWW"[..3] == "RWW";
    assert Evaluate("RGBY", "R") == Score(1, 0);
    assert Evaluate("RGBY", "RW") == Score(1, 0);
    assert Evaluate("RGBY", "RWW") == Score(1, 0);
    assert Evaluate("RGBY", "RWWW") == Score(1, 0);
  }

  /** A symbol of the secret in the wrong place is one colour match. */
  lemma SingleColorExample()
    ensures Evaluate("RGBY", "WWWR") == Score(0, 1)
  {
    assert "WWWR"[..1] == "W";
    assert "WWWR"[..2] == "WW";
    assert "WWWR"[..3] == "WWW";
    assert Evaluate("RGBY", "W") == Score(0, 0);
    assert Evaluate("RGBY", "WW") == Score(0, 0);
    assert Evaluate("RGBY", "WWW") == Score(0, 0);
    assert Evaluate("RGBY", "WWWR") == Score(0, 1);
  }

  /** Two misplaced symbols are two colour matches. */
  lemma TwoColorsExample()
    ensures Evaluate("RGBY", "WWGR") == Score(0, 2)
  {
    assert "WWGR"[..1] == "W";
    assert "WWGR"[..2] == "WW";
    assert "WWGR"[..3] == "WWG";
    assert Evaluate("RGBY", "W") == Score(0, 0);
    assert Evaluate("RGBY", "WW") == Score(0, 0);
    assert Evaluate("RGBY", "WWG") == Score(0, 1);
    assert Evaluate("RGBY", "WWGR") == Score(0, 2);
  }

  /** Three misplaced symbols are three colour matches. */
  lemma ThreeColorsExample()
    ensures Evaluate("RGBY", "BWGR") == Score(0, 3)
  {
    assert "BWGR"[..1] == "B";
    assert "BWGR"[..2] == "BW";
    assert "BWGR"[..3] == "BWG";
    assert Evaluate("RGBY", "B") == Score(0, 1);
    assert Evaluate("RGBY", "BW") == Score(0, 1);
    assert Evaluate("RGBY", "BWG") == Score(0, 2);
    assert Evaluate("RGBY", "BWGR") == Score(0, 3);
  }

  /** Both copies of a symbol the secret holds twice count, each on its own. */
  lemma DuplicateSecretColorExample()
    ensures Evaluate("RBBY", "BWGB") == Score(0, 2)
  {
    assert "BWGB"[..1] == "B";
    assert "BWGB"[..2] == "BW";
    assert "BWGB"[..3] == "BWG";
    assert Evaluate("RBBY", "B") == Score(0, 1);
    assert Evaluate("RBBY", "BW") == Score(0, 1);
    assert Evaluate("RBBY", "BWG") == Score(0, 1);
    assert Evaluate("RBBY", "BWGB") == Score(0, 2);
  }

  /** A perfect match and a colour match together. */
  lemma MixedExample()
    ensures Evaluate("RBBY", "RWGB") == Score(1, 1)
  {
    assert "RWGB"[..1] == "R";
    assert "RWGB"[..2] == "RW";
    assert "RWGB"[..3] == "RWG";
    assert Evaluate("RBBY", "R") == Score(1, 0);
    assert Evaluate("RBBY", "RW") == Score(1, 0);
    assert Evaluate("RBBY", "RWG") == Score(1, 0);
    assert Evaluate("RBBY", "RWGB") == Score(1, 1);
  }

  /** Membership is tested against the whole secret each time: three copies
      of a symbol the secret holds once all count as colour matches. */
  lemma DuplicateGuessSymbolsEachCount()
    ensures Evaluate("RGBY", "WRRR") == Score(0, 3)
  {
    assert "WRRR"[..1] == "W";
    assert "WRRR"[..2] == "WR";
    assert "WRRR"[..3] == "WRR";
    assert Evaluate("RGBY", "W") == Score(0, 0);
    assert Evaluate("RGBY", "WR") == Score(0, 1);
    assert Evaluate("RGBY", "WRR") == Score(0, 2);
    assert Evaluate("RGBY", "WRRR") == Score(0, 3);
  }

  /** A correct guess is accepted; a five-symbol guess, a three-symbol guess
      and a guess holding the non-colour 'X' are rejected. */
  lemma ValidationExamples()
    ensures IsValidGuess("RGBY")
    ensures !IsValidGuess("RGBYG")
    ensures !IsValidGuess("RGBX")
    ensures !IsValidGuess("RGB")
  {
  }
}
