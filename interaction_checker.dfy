/**
 * The interaction-checker screen: a list of products, each with the
 * ingredients the server extracted for it, and the result of the last
 * interaction check. The handlers add a product, remove one by position and
 * run the check; the screen shows the de-duplicated ingredient summary, a
 * check button and the result panel.
 */
module InteractionChecker {
  import opened Seqs
  import opened Text
  import opened Optional

  datatype Product = Product(name: string, ingredients: seq<string>)

  /** One interaction reported by the check, as the server passes it through. */
  datatype Interaction = Interaction(
    supplement: string,
    extractedIngredients: seq<string>,
    conflicts: seq<string>,
    conflictIngredients: seq<string>,
    warning: string,
    severity: string,
    recommendation: string)

  /** The reply body of a successful check; `interactions` may be absent. */
  datatype CheckResult = CheckResult(interactions: Option<seq<Interaction>>, overallSafety: string, generalAdvice: string)

  /**
   * How the extraction request ended: a reply with its status and its
   * `ingredients` field (absent in an error body), or a failure to fetch or
   * to parse the body.
   */
  datatype ExtractResponse = ExtractReplied(ok: bool, ingredients: Option<seq<string>>) | ExtractUnreachable

  /** How the check request ended. */
  datatype CheckResponse = CheckReplied(ok: bool, data: CheckResult) | CheckUnreachable

  /** A request sent to the server. */
  datatype Request = ExtractRequest(productName: string) | CheckRequest(supplements: seq<string>)

  /** `products.map(p => p.name)`. */
  function Names(products: seq<Product>): (names: seq<string>)
    ensures |names| == |products|
    ensures forall i :: 0 <= i < |products| ==> names[i] == products[i].name
  {
    seq(|products|, i requires 0 <= i < |products| => products[i].name)
  }

  /** Whether an extraction reply adds a product: ok, with a non-empty ingredient list. */
  predicate Accepted(response: ExtractResponse) {
    response.ExtractReplied? && response.ok && response.ingredients.Some? && |response.ingredients.value| > 0
  }

  /** `products.flatMap(p => p.ingredients)`. */
  function AllIngredients(products: seq<Product>): seq<string> {
    FlatMap((p: Product) => p.ingredients, products)
  }

  /** `[...new Set(totalIngredients)]`: the summary shown under the product list. */
  function UniqueIngredients(products: seq<Product>): seq<string> {
    Dedup(AllIngredients(products))
  }

  /**
   * The summary lists every ingredient of every product once, and in the
   * order of first occurrence across the products.
   */
  lemma UniqueIngredientsSpec(products: seq<Product>, x: string)
    ensures NoDup(UniqueIngredients(products))
    ensures x in UniqueIngredients(products) <==> exists i :: 0 <= i < |products| && x in products[i].ingredients
  {
    DedupNoDup(AllIngredients(products));
    FlatMapMember((p: Product) => p.ingredients, products, x);
  }

  /** Ingredients met earlier in the concatenation come earlier in the summary. */
  lemma UniqueIngredientsOrder(products: seq<Product>, x: string, y: string)
    requires x in AllIngredients(products) && y in AllIngredients(products)
    requires IndexOf(AllIngredients(products), x) < IndexOf(AllIngredients(products), y)
    ensures IndexOf(UniqueIngredients(products), x) < IndexOf(UniqueIngredients(products), y)
  {
    DedupKeepsFirstOccurrenceOrder(AllIngredients(products), x, y);
  }

  /** The condition under which the check button is rendered. */
  predicate CheckButtonVisible(products: seq<Product>) {
    |products| > 0 && |UniqueIngredients(products)| >= 2
  }

  /** A sequence holding two different values has at least two elements. */
  lemma TwoDistinctMembers(s: seq<string>, a: string, b: string)
    requires a in s && b in s && a != b
    ensures |s| >= 2
  {
    var i :| 0 <= i < |s| && s[i] == a;
    var j :| 0 <= j < |s| && s[j] == b;
    assert i != j;
  }

  /**
   * One product with two different ingredients shows the button, although
   * the check refuses to run with fewer than two products.
   */
  lemma SingleProductShowsButton(product: Product, a: string, b: string)
    requires a in product.ingredients && b in product.ingredients && a != b
    ensures CheckButtonVisible([product])
  {
    UniqueIngredientsSpec([product], a);
    UniqueIngredientsSpec([product], b);
    TwoDistinctMembers(UniqueIngredients([product]), a, b);
  }

  /** Two products sharing their single ingredient hide the button, although the check would run. */
  lemma SharedIngredientHidesButton(first: string, second: string, ingredient: string)
    ensures !CheckButtonVisible([Product(first, [ingredient]), Product(second, [ingredient])])
  {
    var products := [Product(first, [ingredient]), Product(second, [ingredient])];
    var f := (p: Product) => p.ingredients;
    assert FlatMap(f, [Product(second, [ingredient])]) == [ingredient] by {
      assert [Product(second, [ingredient])][1..] == [];
    }
    assert AllIngredients(products) == [ingredient] + [ingredient] by {
      assert products[1..] == [Product(second, [ingredient])];
    }
    DedupSnoc([ingredient], ingredient);
    assert [ingredient] + [ingredient] == [ingredient, ingredient];
  }

  // ---------------------------------------------------------------------------
  // Labels of the result panel

  const HighLabel: string := "높음"
  const MediumLabel: string := "중간"
  const LowLabel: string := "낮음"

  /** The badge of an interaction's severity; a value other than the two named ones reads as low. */
  function SeverityLabel(severity: string): (badge: string)
    ensures badge == HighLabel <==> severity == "high"
    ensures badge == MediumLabel <==> severity == "medium"
    ensures badge == LowLabel <==> severity != "high" && severity != "medium"
  {
    if severity == "high" then HighLabel else if severity == "medium" then MediumLabel else LowLabel
  }

  const DefaultSafeAdvice: string := "분석된 영양 성분들 간에 알려진 상호작용이 없습니다."
  const WarningTitle: string := "주의 필요"
  const CautionTitle: string := "확인 필요"
  const FoundInteractionsSuffix: string := "개의 상호작용이 발견되었습니다."

  /** The head of the result panel: the safe panel with its advice, or an alert with a title and a count line. */
  datatype SafetyPanel = SafePanel(advice: string) | AlertPanel(title: string, summary: string)

  function Panel(result: CheckResult, count: nat): (panel: SafetyPanel)
    ensures panel.SafePanel? <==> result.overallSafety == "safe"
    ensures panel.SafePanel? ==> panel.advice != "" && (result.generalAdvice != "" ==> panel.advice == result.generalAdvice)
    ensures panel.AlertPanel? ==> (panel.title == WarningTitle <==> result.overallSafety == "warning")
    ensures panel.AlertPanel? ==> panel.title in {WarningTitle, CautionTitle}
    ensures panel.AlertPanel? ==> panel.summary == Decimal(count) + FoundInteractionsSuffix
  {
    if result.overallSafety == "safe" then
      SafePanel(if result.generalAdvice != "" then result.generalAdvice else DefaultSafeAdvice)
    else
      AlertPanel(if result.overallSafety == "warning" then WarningTitle else CautionTitle,
                 Decimal(count) + FoundInteractionsSuffix)
  }

  // ---------------------------------------------------------------------------
  // The component state and its handlers

  /** A product as an accepted extraction makes it: a non-blank name and some ingredients. */
  predicate Extracted(p: Product) {
    Trim(p.name) != "" && |p.ingredients| > 0
  }

  /** Every product came from an accepted extraction. */
  predicate WellFormed(products: seq<Product>) {
    forall p :: p in products ==> Extracted(p)
  }

  /** Adding a product named by a trimmed non-blank input, with some ingredients, keeps the list well formed. */
  lemma AppendKeepsWellFormed(products: seq<Product>, input: string, ingredients: seq<string>)
    requires WellFormed(products) && Trim(input) != "" && |ingredients| > 0
    ensures WellFormed(products + [Product(Trim(input), ingredients)])
  {
    TrimIdempotent(input);
  }

  /** Removing a position keeps the list well formed. */
  lemma DropKeepsWellFormed(products: seq<Product>, index: int)
    requires WellFormed(products)
    ensures WellFormed(DropIndex(products, index))
  {
    DropIndexIsSlice(products, index);
    if 0 <= index < |products| {
      assert forall p :: p in DropIndex(products, index) ==> p in products[..index] || p in products[index + 1..];
    }
  }

  /** What the invariant gives the screen: a non-empty product list has a non-empty ingredient summary. */
  lemma WellFormedSummaryNonEmpty(products: seq<Product>)
    requires WellFormed(products) && |products| > 0
    ensures |UniqueIngredients(products)| > 0
  {
    assert Extracted(products[0]);
    var x := products[0].ingredients[0];
    UniqueIngredientsSpec(products, x);
    assert x in UniqueIngredients(products);
  }

  class Checker {
    var products: seq<Product>
    var inputValue: string
    var interactions: seq<Interaction>
    var checked: bool
    var llmResult: Option<CheckResult>
    /** The requests sent so far, oldest first. */
    ghost var requests: seq<Request>

    predicate Valid()
      reads this
    {
      WellFormed(products)
    }

    /** The panel shown, when one is: only after a check has completed with a result. */
    function ShownPanel(): (panel: Option<SafetyPanel>)
      reads this
      ensures panel.Some? <==> checked && llmResult.Some?
    {
      if checked && llmResult.Some? then Some(Panel(llmResult.value, |interactions|)) else None
    }

    /**
     * Whether the closing advice box is shown: some advice and at least one
     * interaction. It only appears under a shown panel, and when that panel is
     * the safe one the advice is shown twice, in the panel and in the box.
     */
    predicate AdviceShown(): (shown: bool)
      reads this
      ensures shown ==> ShownPanel().Some?
      ensures shown && llmResult.value.overallSafety == "safe" ==> ShownPanel() == Some(SafePanel(llmResult.value.generalAdvice))
    {
      checked && llmResult.Some? && llmResult.value.generalAdvice != "" && |interactions| > 0
    }

    constructor()
      ensures products == [] && inputValue == "" && interactions == [] && !checked && llmResult == None
      ensures requests == []
      ensures Valid()
    {
      products := [];
      inputValue := "";
      interactions := [];
      checked := false;
      llmResult := None;
      requests := [];
    }

    /** The input field's `onChange`. */
    method SetInput(value: string)
      modifies this
      ensures inputValue == value
      ensures products == old(products) && interactions == old(interactions) && checked == old(checked)
      ensures llmResult == old(llmResult) && requests == old(requests)
    {
      inputValue := value;
    }

    /**
     * `handleAddProduct`. A blank input does nothing. Otherwise the trimmed
     * input is sent for extraction; an accepted reply appends the product,
     * clears the input and the checked flag, and any other outcome changes
     * nothing.
     */
    method AddProduct(response: ExtractResponse)
      modifies this
      ensures Trim(old(inputValue)) == "" ==>
        products == old(products) && inputValue == old(inputValue) && checked == old(checked) &&
        requests == old(requests)
      ensures Trim(old(inputValue)) != "" ==> requests == old(requests) + [ExtractRequest(Trim(old(inputValue)))]
      ensures Trim(old(inputValue)) != "" && Accepted(response) ==>
        products == old(products) + [Product(Trim(old(inputValue)), response.ingredients.value)] &&
        inputValue == "" && !checked
      ensures Trim(old(inputValue)) != "" && !Accepted(response) ==>
        products == old(products) && inputValue == old(inputValue) && checked == old(checked)
      ensures interactions == old(interactions) && llmResult == old(llmResult)
      ensures old(Valid()) ==> Valid()
    {
      var productName := Trim(inputValue);
      if productName == "" {
        return;
      }
      requests := requests + [ExtractRequest(productName)];
      if Accepted(response) {
        if Valid() {
          AppendKeepsWellFormed(products, inputValue, response.ingredients.value);
        }
        products := products + [Product(productName, response.ingredients.value)];
        inputValue := "";
        checked := false;
      }
    }

    /** `handleRemoveProduct`: drops the product at `index` and clears the checked flag. */
    method RemoveProduct(index: int)
      modifies this
      ensures products == DropIndex(old(products), index)
      ensures 0 <= index < |old(products)| ==> products == old(products)[..index] + old(products)[index + 1..]
      ensures !checked
      ensures inputValue == old(inputValue) && interactions == old(interactions) && llmResult == old(llmResult)
      ensures requests == old(requests)
      ensures old(Valid()) ==> Valid()
    {
      DropIndexIsSlice(products, index);
      if Valid() {
        DropKeepsWellFormed(products, index);
      }
      products := DropIndex(products, index);
      checked := false;
    }

    /**
     * `handleCheckInteractions`. With fewer than two products nothing is sent
     * and nothing changes. Otherwise the checked flag is cleared and the
     * product names are sent; an ok reply stores its interactions (none when
     * absent) and the whole result and sets the flag again.
     */
    method CheckInteractions(response: CheckResponse)
      modifies this
      ensures products == old(products) && inputValue == old(inputValue)
      ensures |old(products)| < 2 ==>
        interactions == old(interactions) && checked == old(checked) && llmResult == old(llmResult) &&
        requests == old(requests)
      ensures |old(products)| >= 2 ==> requests == old(requests) + [CheckRequest(Names(old(products)))]
      ensures |old(products)| >= 2 && response.CheckReplied? && response.ok ==>
        interactions == (if response.data.interactions.Some? then response.data.interactions.value else []) &&
        llmResult == Some(response.data) && checked
      ensures |old(products)| >= 2 && !(response.CheckReplied? && response.ok) ==>
        interactions == old(interactions) && llmResult == old(llmResult) && !checked
      ensures Valid() == old(Valid())
    {
      if |products| < 2 {
        return;
      }
      checked := false;
      var productNames := Names(products);
      requests := requests + [CheckRequest(productNames)];
      if response.CheckReplied? && response.ok {
        var data := response.data;
        interactions := if data.interactions.Some? then data.interactions.value else [];
        llmResult := Some(data);
        checked := true;
      }
    }
  }
}
