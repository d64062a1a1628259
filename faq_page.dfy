/** The FAQ page: the list of open questions and the case-insensitive search. */
module FaqPage {
  import Text

  datatype Faq = Faq(category: string, question: string, answer: string)

  predicate NoDuplicates(s: seq<string>) {
    forall i, j :: 0 <= i < j < |s| ==> s[i] != s[j]
  }

  /** `prev.filter(q => q !== question)` */
  function Remove(s: seq<string>, q: string): (r: seq<string>)
    ensures q !in r
    ensures forall x :: x != q ==> (x in r <==> x in s)
    ensures NoDuplicates(s) ==> NoDuplicates(r)
    ensures q !in s ==> r == s
  {
    if s == [] then []
    else if s[0] == q then Remove(s[1..], q)
    else
      var rest := Remove(s[1..], q);
      assert NoDuplicates(s) ==> NoDuplicates(s[1..]) && s[0] !in s[1..];
      [s[0]] + rest
  }

  /** `toggleItem(question)`: an open question closes, a closed one opens at the end. */
  function ToggleItem(openItems: seq<string>, q: string): (r: seq<string>)
    ensures q in openItems ==> q !in r
    ensures q !in openItems ==> r == openItems + [q]
    ensures forall x :: x != q ==> (x in r <==> x in openItems)
    ensures NoDuplicates(openItems) ==> NoDuplicates(r)
  {
    if q in openItems then Remove(openItems, q) else openItems + [q]
  }

  /** Removing a question just appended to a list without it gives back the list. */
  lemma {:induction false} RemoveAppended(s: seq<string>, q: string)
    requires q !in s
    ensures Remove(s + [q], q) == s
  {
    if s == [] {
      assert [] + [q] == [q];
    } else {
      assert (s + [q])[0] == s[0];
      assert (s + [q])[1..] == s[1..] + [q];
      RemoveAppended(s[1..], q);
    }
  }

  /** Opening and then closing a question restores the exact list. */
  lemma ToggleTwice(openItems: seq<string>, q: string)
    requires q !in openItems
    ensures ToggleItem(ToggleItem(openItems, q), q) == openItems
  {
    RemoveAppended(openItems, q);
  }

  /** The search: the lower-cased question or answer contains the lower-cased term; the empty term matches all. */
  function Matches(faq: Faq, term: string): (r: bool)
    ensures term == "" ==> r
  {
    assert Text.ToLower("") == "";
    Text.ContainsEmpty(Text.ToLower(faq.question));
    Text.Contains(Text.ToLower(faq.question), Text.ToLower(term)) ||
    Text.Contains(Text.ToLower(faq.answer), Text.ToLower(term))
  }

  /** `s` is an order-preserving subsequence of `t`. */
  predicate Subsequence<T(==)>(s: seq<T>, t: seq<T>)
    decreases |t|
  {
    s == [] || (t != [] && (if s[0] == t[0] then Subsequence(s[1..], t[1..]) else Subsequence(s, t[1..])))
  }

  /** `filteredFaqs` */
  function FilterFaqs(faqs: seq<Faq>, term: string): (r: seq<Faq>)
    ensures forall f :: f in r <==> f in faqs && Matches(f, term)
    ensures forall f :: multiset(r)[f] == if Matches(f, term) then multiset(faqs)[f] else 0
    ensures Subsequence(r, faqs)
  {
    if faqs == [] then []
    else if Matches(faqs[0], term) then
      assert faqs == [faqs[0]] + faqs[1..];
      [faqs[0]] + FilterFaqs(faqs[1..], term)
    else
      assert faqs == [faqs[0]] + faqs[1..];
      var rest := FilterFaqs(faqs[1..], term);
      SubsequenceSkip(rest, faqs);
      rest
  }

  /** Dropping the head of `t` keeps every subsequence of its tail a subsequence of `t`. */
  lemma {:induction false} SubsequenceSkip<T>(s: seq<T>, t: seq<T>)
    requires t != [] && Subsequence(s, t[1..])
    ensures Subsequence(s, t)
    decreases |t|, 0
  {
    if s != [] && s[0] == t[0] {
      SubsequenceDropHead(s, t[1..]);
    }
  }

  /** Dropping the head of a subsequence leaves a subsequence. */
  lemma {:induction false} SubsequenceDropHead<T>(s: seq<T>, u: seq<T>)
    requires s != [] && Subsequence(s, u)
    ensures Subsequence(s[1..], u)
    decreases |u|, 1
  {
    if s[0] == u[0] {
      SubsequenceSkip(s[1..], u);
    } else {
      SubsequenceDropHead(s, u[1..]);
      SubsequenceSkip(s[1..], u);
    }
  }

  /** An empty search term keeps every FAQ. */
  lemma {:induction false} EmptyTermKeepsAll(faqs: seq<Faq>)
    ensures FilterFaqs(faqs, "") == faqs
  {
    if faqs != [] {
      EmptyTermKeepsAll(faqs[1..]);
    }
  }

  datatype ItemView = ItemView(question: string, answer: string, isOpen: bool)

  datatype ListView = NoResults | Items(items: seq<ItemView>)

  /** The list: "No results found." for an empty result, otherwise one item per match. */
  function View(faqs: seq<Faq>, term: string, openItems: seq<string>): (v: ListView)
    ensures v.NoResults? <==> FilterFaqs(faqs, term) == []
    ensures v.Items? ==>
      var shown := FilterFaqs(faqs, term);
      |v.items| == |shown| &&
      forall i :: 0 <= i < |shown| ==>
        v.items[i].question == shown[i].question &&
        v.items[i].answer == shown[i].answer &&
        (v.items[i].isOpen <==> shown[i].question in openItems)
  {
    var shown := FilterFaqs(faqs, term);
    if shown == [] then NoResults
    else Items(seq(|shown|, i requires 0 <= i < |shown| =>
      ItemView(shown[i].question, shown[i].answer, shown[i].question in openItems)))
  }
}
