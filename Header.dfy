/**
 * The fixed comment lines of the settings file that `apply` writes, and the
 * facts about them that reading the file back relies on. Each comment line is
 * its own constant; the longer ones are written in pieces that spell the same
 * text.
 */
module Header {

  /** A line the walk over the settings file deletes without looking further: one character or less, or a comment. */
  predicate Dropped(line: string)
  {
    |line| <= 1 || line[0] == '#'
  }

  /** A dropped line that splitting on newlines leaves whole. */
  predicate Blank(line: string)
  {
    Dropped(line) && '\n' !in line
  }

  const Comment0 := "# Config File for time-tracker"
  const Comment1 := "# lines starting with '#' are comments"
  const Comment2 := "# lines starting with '$' are internal vars"
  const Comment3 := "# on each line, place process " + "name of each app to be tracked"
  const Comment4 := "# so for instance if you want " + "to track Filezilla usage, put"
  const Comment5 := "# 'filezilla' on it's own line " + "(no quotation marks)"
  const Comment6 := "# How often to poll for " + "processes, in seconds, " + "floating point numbers supported"
  const Comment7 := "# More often gives better timing accuracy"
  const Comment8 := "# Less often uses less CPU power"
  const Comment9 := "# how to format time output " + "in settings window"
  const Comment10 := "# s = seconds"
  const Comment11 := "# m = minutes"
  const Comment12 := "# h = hours (default)"
  const Comment13 := "# d = days"
  const Comment14 := "# w = weeks"

  // One lemma per line or few lines: proving many literal lines at once overruns the solver.

  lemma Comment0Blank()
    ensures Blank(Comment0)
  {
  }

  lemma Comment1Blank()
    ensures Blank(Comment1)
  {
  }

  lemma Comment2Blank()
    ensures Blank(Comment2)
  {
  }

  lemma Comment3Blank()
    ensures Blank(Comment3)
  {
  }

  lemma Comment4Blank()
    ensures Blank(Comment4)
  {
  }

  lemma Comment5Blank()
    ensures Blank(Comment5)
  {
  }

  lemma Comment6Blank()
    ensures Blank(Comment6)
  {
  }

  lemma Comment7Blank()
    ensures Blank(Comment7)
  {
  }

  lemma Comment8Blank()
    ensures Blank(Comment8)
  {
  }

  lemma Comments9To11()
    ensures Blank(Comment9) && Blank(Comment10) && Blank(Comment11)
  {
  }

  lemma Comments12To14()
    ensures Blank(Comment12) && Blank(Comment13) && Blank(Comment14)
  {
  }

  /** Every comment line of the header is dropped by the walk and holds no newline. */
  lemma CommentsBlank()
    ensures Blank(Comment0) && Blank(Comment1) && Blank(Comment2) && Blank(Comment3) && Blank(Comment4)
    ensures Blank(Comment5) && Blank(Comment6) && Blank(Comment7) && Blank(Comment8) && Blank(Comment9)
    ensures Blank(Comment10) && Blank(Comment11) && Blank(Comment12) && Blank(Comment13) && Blank(Comment14)
  {
    Comment0Blank();
    Comment1Blank();
    Comment2Blank();
    Comment3Blank();
    Comment4Blank();
    Comment5Blank();
    Comment6Blank();
    Comment7Blank();
    Comment8Blank();
    Comments9To11();
    Comments12To14();
  }
}
