/**
 * Category names and the two ways the pages turn a category into a CSS class: the
 * `categoryStyles` lookup table (defined identically in the projects page and the video
 * card) with 'tag' as the fallback, and the computed class
 * `category-${category.toLowerCase().replace('-', '')}` of the modal and the home page.
 */
module Categories {
  import opened Text

  /** The category options of the admin upload form; the last is the catch-all. */
  const FormCategories: seq<string> := ["ERP", "CRM", "Admin", "Tracking", "E-Commerce", "SaaS", "Other"]

  /** The filter buttons of the projects and gallery pages: the sentinel 'all', then every category but 'Other'. */
  const FilterValues: seq<string> := ["all", "ERP", "CRM", "Admin", "Tracking", "E-Commerce", "SaaS"]

  const AllSentinel: string := "all"

  const CategoryStyles: map<string, string> := map[
    "ERP" := "category-erp",
    "CRM" := "category-crm",
    "Admin" := "category-admin",
    "Tracking" := "category-tracking",
    "E-Commerce" := "category-ecommerce",
    "SaaS" := "category-saas",
    "Other" := "tag"
  ]

  /** `categoryStyles[category] || 'tag'`. */
  function StyleClass(category: string): string
  {
    if category in CategoryStyles then CategoryStyles[category] else "tag"
  }

  /** The table knows exactly the admin form's categories; anything else falls back to 'tag'. */
  lemma StyleClassTable(category: string)
    ensures category !in FormCategories ==> StyleClass(category) == "tag"
    ensures category in FormCategories <==> category in CategoryStyles
    ensures StyleClass(category) == "tag" || StartsWith(StyleClass(category), "category-")
  {
    assert CategoryStyles.Keys == {"ERP", "CRM", "Admin", "Tracking", "E-Commerce", "SaaS", "Other"};
  }

  /** `category-` followed by the lower-cased category with its first '-' removed. */
  function ComputedClass(category: string): string
  {
    "category-" + RemoveFirst(ToLower(category), '-')
  }

  /** Lower-casing neither creates nor removes a '-'. */
  lemma DashSurvivesLower(s: string)
    ensures '-' in s <==> '-' in ToLower(s)
  {
    var low := ToLower(s);
    if '-' in s {
      var i :| 0 <= i < |s| && s[i] == '-';
      assert low[i] == '-';
    }
    if '-' in low {
      var i :| 0 <= i < |low| && low[i] == '-';
      assert s[i] == '-';
    }
  }

  /**
   * The computed class is 'category-' followed by the category, lower-cased and with its
   * first '-' taken out: the lower-cased parts before and after that '-', in order; one
   * character shorter when there is a '-', and no upper-case letter left.
   */
  lemma ComputedClassShape(category: string)
    ensures var r := ComputedClass(category);
            && StartsWith(r, "category-")
            && ('-' !in category ==> r[9..] == ToLower(category))
            && ('-' in category ==>
                  exists i :: 0 <= i < |category| && category[i] == '-' && '-' !in category[..i]
                              && r[9..] == ToLower(category[..i]) + ToLower(category[i + 1..]))
            && |r| == 9 + |category| - (if '-' in category then 1 else 0)
            && multiset(r[9..]) + (if '-' in category then multiset{'-'} else multiset{})
               == multiset(ToLower(category))
            && forall i :: 9 <= i < |r| ==> !IsUpper(r[i])
  {
    var low := ToLower(category);
    DashSurvivesLower(category);
    RemoveFirstCount(low, '-');
    var tail := RemoveFirst(low, '-');
    var r := ComputedClass(category);
    assert r[9..] == tail;
    if '-' in category {
      FirstDashPlace(category);
    }
    forall i | 9 <= i < |r| ensures !IsUpper(r[i]) {
      assert r[i] == tail[i - 9];
      assert tail[i - 9] in low;
    }
  }

  /** The first '-' of the lower-cased category is the category's own first '-'. */
  lemma FirstDashPlace(category: string)
    requires '-' in category
    ensures var low, i := ToLower(category), IndexOf(ToLower(category), '-');
            && i < |category| && category[i] == '-' && '-' !in category[..i]
            && RemoveFirst(low, '-') == ToLower(category[..i]) + ToLower(category[i + 1..])
  {
    var low := ToLower(category);
    DashSurvivesLower(category);
    var i := IndexOf(low, '-');
    forall j | 0 <= j < i ensures category[..i][j] != '-' {
      assert low[j] != '-';
    }
    ToLowerSlices(category, i);
  }

  /** A category without a '-' computes to 'category-' and its lower-cased name. */
  lemma NoDashClass(category: string, low: string)
    requires ToLower(category) == low && '-' !in low
    ensures ComputedClass(category) == "category-" + low
  {
    RemoveFirstCount(low, '-');
  }

  /** The lower-cased names of the form's categories. */
  lemma LowerCategoryNames()
    ensures ToLower("ERP") == "erp"
    ensures ToLower("CRM") == "crm"
    ensures ToLower("Admin") == "admin"
    ensures ToLower("Tracking") == "tracking"
    ensures ToLower("E-Commerce") == "e-commerce"
    ensures ToLower("SaaS") == "saas"
    ensures ToLower("Other") == "other"
  {
  }

  lemma ErpClass() ensures ComputedClass("ERP") == "category-erp" {
    LowerCategoryNames();
    NoDashClass("ERP", "erp");
  }

  lemma CrmClass() ensures ComputedClass("CRM") == "category-crm" {
    LowerCategoryNames();
    NoDashClass("CRM", "crm");
  }

  lemma AdminClass() ensures ComputedClass("Admin") == "category-admin" {
    LowerCategoryNames();
    NoDashClass("Admin", "admin");
  }

  lemma TrackingClass() ensures ComputedClass("Tracking") == "category-tracking" {
    LowerCategoryNames();
    NoDashClass("Tracking", "tracking");
  }

  /** The one category with a '-': only that '-' goes. */
  lemma ECommerceDash() ensures RemoveFirst("e-commerce", '-') == "ecommerce" {
    assert IndexOf("e-commerce", '-') == 1;
  }

  lemma ECommerceClass() ensures ComputedClass("E-Commerce") == "category-ecommerce" {
    LowerCategoryNames();
    ECommerceDash();
  }

  lemma SaasClass() ensures ComputedClass("SaaS") == "category-saas" {
    LowerCategoryNames();
    NoDashClass("SaaS", "saas");
  }

  lemma OtherClass() ensures ComputedClass("Other") == "category-other" {
    LowerCategoryNames();
    NoDashClass("Other", "other");
  }

  /** The table's class for each form category. */
  lemma StyleClassValues()
    ensures StyleClass("ERP") == "category-erp" && StyleClass("CRM") == "category-crm"
    ensures StyleClass("Admin") == "category-admin" && StyleClass("Tracking") == "category-tracking"
    ensures StyleClass("E-Commerce") == "category-ecommerce" && StyleClass("SaaS") == "category-saas"
    ensures StyleClass("Other") == "tag"
  {
  }

  /** For the six named categories both derivations agree; for 'Other' they differ. */
  lemma ComputedClassMatchesStyle(c: string)
    requires c in FormCategories
    ensures c != "Other" ==> ComputedClass(c) == StyleClass(c)
    ensures c == "Other" ==> ComputedClass(c) == "category-other" && StyleClass(c) == "tag"
  {
    assert c == FormCategories[0] || c == FormCategories[1] || c == FormCategories[2] || c == FormCategories[3]
        || c == FormCategories[4] || c == FormCategories[5] || c == FormCategories[6];
    StyleClassValues();
    if c == "ERP" { ErpClass(); }
    else if c == "CRM" { CrmClass(); }
    else if c == "Admin" { AdminClass(); }
    else if c == "Tracking" { TrackingClass(); }
    else if c == "E-Commerce" { ECommerceClass(); }
    else if c == "SaaS" { SaasClass(); }
    else { OtherClass(); }
  }
}
