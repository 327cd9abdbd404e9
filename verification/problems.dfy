/** The problem list of the side panel: ten fixed problems and a filter by difficulty. */
module Problems {

  datatype Problem = Problem(id: nat, title: string, difficulty: string, description: string, url: string)

  /** The entries of `sampleProblems`. */
  const P1: Problem := Problem(1, "Two Sum", "Easy",
    "Given an array of integers nums and an integer target, return indices of the two numbers such that they add up to target.",
    "https://leetcode.com/problems/two-sum")
  const P2: Problem := Problem(2, "Add Two Numbers", "Medium",
    "Given two non-empty linked lists representing two non-negative integers. The digits are stored in reverse order, and each node contains a single digit.",
    "https://leetcode.com/problems/add-two-numbers")
  const P3: Problem := Problem(3, "Longest Substring Without Repeating Characters", "Medium",
    "Given a string s, find the length of the longest substring without repeating characters.",
    "https://leetcode.com/problems/longest-substring-without-repeating-characters")
  const P4: Problem := Problem(4, "Median of Two Sorted Arrays", "Hard",
    "Given two sorted arrays nums1 and nums2 of size m and n respectively, return the median of the two sorted arrays.",
    "https://leetcode.com/problems/median-of-two-sorted-arrays")
  const P5: Problem := Problem(5, "Valid Parentheses", "Easy",
    "Given a string s containing just the characters '(', ')', '{', '}', '[' and ']', determine if the input string is valid.",
    "https://leetcode.com/problems/valid-parentheses")
  const P6: Problem := Problem(6, "Merge k Sorted Lists", "Hard",
    "You are given an array of k linked-lists lists, each linked-list is sorted in ascending order. Merge all the linked-lists into one sorted linked-list.",
    "https://leetcode.com/problems/merge-k-sorted-lists")
  const P7: Problem := Problem(7, "Best Time to Buy and Sell Stock", "Easy",
    "You are given an array prices where prices[i] is the price of a given stock on the ith day. Maximize your profit by choosing a single day to buy and a single day to sell.",
    "https://leetcode.com/problems/best-time-to-buy-and-sell-stock")
  const P8: Problem := Problem(8, "Maximum Subarray", "Medium",
    "Given an integer array nums, find the contiguous subarray which has the largest sum and return its sum.",
    "https://leetcode.com/problems/maximum-subarray")
  const P9: Problem := Problem(9, "Word Search", "Medium",
    "Given an m x n grid of characters board and a string word, return true if word exists in the grid. The word can be constructed from letters of sequentially adjacent cells.",
    "https://leetcode.com/problems/word-search")
  const P10: Problem := Problem(10, "Regular Expression Matching", "Hard",
    "Given an input string s and a pattern p, implement regular expression matching with support for '.' and '*' where '.' matches any single character and '*' matches zero or more of the preceding element.",
    "https://leetcode.com/problems/regular-expression-matching")

  /** `sampleProblems`, in the order the panel lists them. */
  const SampleProblems: seq<Problem> := [P1, P2, P3, P4, P5, P6, P7, P8, P9, P10]

  /** The filter's test: `'all'` keeps everything, `'1'`, `'2'`, `'3'` keep one difficulty. */
  predicate Matches(difficulty: string, p: Problem) {
    || difficulty == "all"
    || (difficulty == "1" && p.difficulty == "Easy")
    || (difficulty == "2" && p.difficulty == "Medium")
    || (difficulty == "3" && p.difficulty == "Hard")
  }

  /** `a` is `b` with some elements left out, the rest in their order. */
  predicate IsSubsequence<T(==)>(a: seq<T>, b: seq<T>)
    decreases |b|
  {
    if a == [] then true
    else if b == [] then false
    else if a[0] == b[0] then IsSubsequence(a[1..], b[1..])
    else IsSubsequence(a, b[1..])
  }

  /** `problems.filter(...)` with the panel's test. */
  function Filter(problems: seq<Problem>, difficulty: string): (r: seq<Problem>)
    ensures |r| <= |problems|
  {
    if problems == [] then []
    else if Matches(difficulty, problems[0]) then [problems[0]] + Filter(problems[1..], difficulty)
    else Filter(problems[1..], difficulty)
  }

  /**
   The filter keeps exactly the matching problems, in their order; it keeps
   everything when everything matches and nothing when nothing does.
   */
  lemma {:induction false} FilterKeepsMatching(problems: seq<Problem>, difficulty: string)
    ensures forall p :: p in Filter(problems, difficulty) <==> p in problems && Matches(difficulty, p)
    ensures IsSubsequence(Filter(problems, difficulty), problems)
    ensures (forall i :: 0 <= i < |problems| ==> Matches(difficulty, problems[i])) ==> Filter(problems, difficulty) == problems
    ensures (forall i :: 0 <= i < |problems| ==> !Matches(difficulty, problems[i])) ==> Filter(problems, difficulty) == []
  {
    if problems != [] {
      FilterKeepsMatching(problems[1..], difficulty);
      var rest := Filter(problems[1..], difficulty);
      if Matches(difficulty, problems[0]) {
        assert ([problems[0]] + rest)[1..] == rest;
      } else {
        assert rest == [] || rest[0] != problems[0];
        if (forall i :: 0 <= i < |problems| ==> !Matches(difficulty, problems[i])) {
          assert forall i :: 0 <= i < |problems[1..]| ==> !Matches(difficulty, problems[1..][i]) by {
            forall i | 0 <= i < |problems[1..]| ensures !Matches(difficulty, problems[1..][i]) {
              assert problems[1..][i] == problems[i + 1];
            }
          }
        }
      }
      if (forall i :: 0 <= i < |problems| ==> Matches(difficulty, problems[i])) {
        assert forall i :: 0 <= i < |problems[1..]| ==> Matches(difficulty, problems[1..][i]) by {
          forall i | 0 <= i < |problems[1..]| ensures Matches(difficulty, problems[1..][i]) {
            assert problems[1..][i] == problems[i + 1];
          }
        }
      }
    }
  }

  /** The filtered list the panel shows for a selected difficulty. */
  function FilteredProblems(difficulty: string): (r: seq<Problem>)
    ensures IsSubsequence(r, SampleProblems)
    ensures forall p :: p in r <==> p in SampleProblems && Matches(difficulty, p)
  {
    FilterKeepsMatching(SampleProblems, difficulty);
    Filter(SampleProblems, difficulty)
  }

  /** `'all'` lists every problem in the original order. */
  lemma AllKeepsEverything()
    ensures FilteredProblems("all") == SampleProblems
  {
    FilterKeepsMatching(SampleProblems, "all");
  }

  /** Any value other than `'all'`, `'1'`, `'2'`, `'3'` lists nothing. */
  lemma UnknownDifficultyIsEmpty(difficulty: string)
    requires difficulty !in {"all", "1", "2", "3"}
    ensures FilteredProblems(difficulty) == []
  {
    FilterKeepsMatching(SampleProblems, difficulty);
  }

  /** The filter decides on the first problem and goes on with the rest. */
  lemma FilterFirst(problems: seq<Problem>, difficulty: string)
    requires problems != []
    ensures Filter(problems, difficulty)
         == (if Matches(difficulty, problems[0]) then [problems[0]] else []) + Filter(problems[1..], difficulty)
  {
  }

  /** `'1'` lists exactly the three Easy problems. */
  lemma EasyProblems()
    ensures FilteredProblems("1") == [P1, P5, P7]
    ensures forall p :: p in FilteredProblems("1") <==> p in SampleProblems && p.difficulty == "Easy"
  {
    FilterEasy();
  }

  /** The filter run over the sample list for `'1'`, one problem at a time. */
  lemma FilterEasy()
    ensures Filter(SampleProblems, "1") == [P1, P5, P7]
  {
    assert [P10][1..] == [];
    FilterFirst([P10], "1");
    assert [P9, P10][1..] == [P10];
    FilterFirst([P9, P10], "1");
    assert [P8, P9, P10][1..] == [P9, P10];
    FilterFirst([P8, P9, P10], "1");
    assert [P7, P8, P9, P10][1..] == [P8, P9, P10];
    FilterFirst([P7, P8, P9, P10], "1");
    assert [P6, P7, P8, P9, P10][1..] == [P7, P8, P9, P10];
    FilterFirst([P6, P7, P8, P9, P10], "1");
    assert [P5, P6, P7, P8, P9, P10][1..] == [P6, P7, P8, P9, P10];
    FilterFirst([P5, P6, P7, P8, P9, P10], "1");
    assert [P4, P5, P6, P7, P8, P9, P10][1..] == [P5, P6, P7, P8, P9, P10];
    FilterFirst([P4, P5, P6, P7, P8, P9, P10], "1");
    assert [P3, P4, P5, P6, P7, P8, P9, P10][1..] == [P4, P5, P6, P7, P8, P9, P10];
    FilterFirst([P3, P4, P5, P6, P7, P8, P9, P10], "1");
    assert [P2, P3, P4, P5, P6, P7, P8, P9, P10][1..] == [P3, P4, P5, P6, P7, P8, P9, P10];
    FilterFirst([P2, P3, P4, P5, P6, P7, P8, P9, P10], "1");
    assert [P1, P2, P3, P4, P5, P6, P7, P8, P9, P10][1..] == [P2, P3, P4, P5, P6, P7, P8, P9, P10];
    FilterFirst([P1, P2, P3, P4, P5, P6, P7, P8, P9, P10], "1");
  }

  /** `'2'` lists exactly the four Medium problems. */
  lemma MediumProblems()
    ensures FilteredProblems("2") == [P2, P3, P8, P9]
    ensures forall p :: p in FilteredProblems("2") <==> p in SampleProblems && p.difficulty == "Medium"
  {
    FilterMedium();
  }

  /** The filter run over the sample list for `'2'`, one problem at a time. */
  lemma FilterMedium()
    ensures Filter(SampleProblems, "2") == [P2, P3, P8, P9]
  {
    assert [P10][1..] == [];
    FilterFirst([P10], "2");
    assert [P9, P10][1..] == [P10];
    FilterFirst([P9, P10], "2");
    assert [P8, P9, P10][1..] == [P9, P10];
    FilterFirst([P8, P9, P10], "2");
    assert [P7, P8, P9, P10][1..] == [P8, P9, P10];
    FilterFirst([P7, P8, P9, P10], "2");
    assert [P6, P7, P8, P9, P10][1..] == [P7, P8, P9, P10];
    FilterFirst([P6, P7, P8, P9, P10], "2");
    assert [P5, P6, P7, P8, P9, P10][1..] == [P6, P7, P8, P9, P10];
    FilterFirst([P5, P6, P7, P8, P9, P10], "2");
    assert [P4, P5, P6, P7, P8, P9, P10][1..] == [P5, P6, P7, P8, P9, P10];
    FilterFirst([P4, P5, P6, P7, P8, P9, P10], "2");
    assert [P3, P4, P5, P6, P7, P8, P9, P10][1..] == [P4, P5, P6, P7, P8, P9, P10];
    FilterFirst([P3, P4, P5, P6, P7, P8, P9, P10], "2");
    assert [P2, P3, P4, P5, P6, P7, P8, P9, P10][1..] == [P3, P4, P5, P6, P7, P8, P9, P10];
    FilterFirst([P2, P3, P4, P5, P6, P7, P8, P9, P10], "2");
    assert [P1, P2, P3, P4, P5, P6, P7, P8, P9, P10][1..] == [P2, P3, P4, P5, P6, P7, P8, P9, P10];
    FilterFirst([P1, P2, P3, P4, P5, P6, P7, P8, P9, P10], "2");
  }

  /** `'3'` lists exactly the three Hard problems. */
  lemma HardProblems()
    ensures FilteredProblems("3") == [P4, P6, P10]
    ensures forall p :: p in FilteredProblems("3") <==> p in SampleProblems && p.difficulty == "Hard"
  {
    FilterHard();
  }

  /** The filter run over the sample list for `'3'`, one problem at a time. */
  lemma FilterHard()
    ensures Filter(SampleProblems, "3") == [P4, P6, P10]
  {
    assert [P10][1..] == [];
    FilterFirst([P10], "3");
    assert [P9, P10][1..] == [P10];
    FilterFirst([P9, P10], "3");
    assert [P8, P9, P10][1..] == [P9, P10];
    FilterFirst([P8, P9, P10], "3");
    assert [P7, P8, P9, P10][1..] == [P8, P9, P10];
    FilterFirst([P7, P8, P9, P10], "3");
    assert [P6, P7, P8, P9, P10][1..] == [P7, P8, P9, P10];
    FilterFirst([P6, P7, P8, P9, P10], "3");
    assert [P5, P6, P7, P8, P9, P10][1..] == [P6, P7, P8, P9, P10];
    FilterFirst([P5, P6, P7, P8, P9, P10], "3");
    assert [P4, P5, P6, P7, P8, P9, P10][1..] == [P5, P6, P7, P8, P9, P10];
    FilterFirst([P4, P5, P6, P7, P8, P9, P10], "3");
    assert [P3, P4, P5, P6, P7, P8, P9, P10][1..] == [P4, P5, P6, P7, P8, P9, P10];
    FilterFirst([P3, P4, P5, P6, P7, P8, P9, P10], "3");
    assert [P2, P3, P4, P5, P6, P7, P8, P9, P10][1..] == [P3, P4, P5, P6, P7, P8, P9, P10];
    FilterFirst([P2, P3, P4, P5, P6, P7, P8, P9, P10], "3");
    assert [P1, P2, P3, P4, P5, P6, P7, P8, P9, P10][1..] == [P2, P3, P4, P5, P6, P7, P8, P9, P10];
    FilterFirst([P1, P2, P3, P4, P5, P6, P7, P8, P9, P10], "3");
  }

  /** Every sample problem is Easy, Medium or Hard, so the three filters partition the list 3 + 4 + 3. */
  lemma DifficultiesPartition()
    ensures forall i :: 0 <= i < |SampleProblems| ==>
      SampleProblems[i].difficulty == "Easy" || SampleProblems[i].difficulty == "Medium" || SampleProblems[i].difficulty == "Hard"
    ensures |FilteredProblems("1")| == 3 && |FilteredProblems("2")| == 4 && |FilteredProblems("3")| == 3
    ensures |FilteredProblems("1")| + |FilteredProblems("2")| + |FilteredProblems("3")| == |SampleProblems|
  {
    FilterEasy();
    FilterMedium();
    FilterHard();
    forall i | 0 <= i < |SampleProblems|
      ensures SampleProblems[i].difficulty == "Easy" || SampleProblems[i].difficulty == "Medium" || SampleProblems[i].difficulty == "Hard"
    {
      assert SampleProblems[i] in SampleProblems;
      assert SampleProblems[i] in [P1, P2, P3, P4, P5, P6, P7, P8, P9, P10];
    }
  }
}
