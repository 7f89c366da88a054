/**
 The engine's fixed rule table (`initializeTemplates`): twenty-three
 recognizers in priority order, with their pattern sources, their SQL
 (a fixed statement or a generator over the match array) and descriptions.
 The layout whitespace of the SQL statements is collapsed to single spaces.
 */
module Templates {
  import opened Common
  import opened Rules
  import JsNumber
  import Text

  /** `${v}` in a template literal: an undefined capture prints as "undefined". */
  function Interp(c: Option<string>): string {
    match c
    case None => "undefined"
    case Some(s) => s
  }

  /** JavaScript truthiness of a capture: present and not the empty string. */
  predicate Truthy(c: Option<string>) {
    c.Some? && c.value != ""
  }

  // ---------------------------------------------------------------------------
  // Generators
  // ---------------------------------------------------------------------------

  function ProductOnDateSql(m: Captures): string {
    "SELECT p.product_name, s.sale_date, s.quantity, s.total_amount, c.customer_name, e.first_name || ' ' || e.last_name as sold_by FROM sales s JOIN products p ON s.product_id = p.product_id JOIN customers c ON s.customer_id = c.customer_id JOIN employees e ON s.employee_id = e.employee_id WHERE LOWER(p.product_name) LIKE LOWER('%"
    + Interp(Capture(m, 1)) + "%') AND date(s.sale_date) = '" + Interp(Capture(m, 2)) + "' ORDER BY s.sale_date"
  }

  function ProductDateRangeSql(m: Captures): string {
    "SELECT p.product_name, s.sale_date, SUM(s.quantity) as total_quantity, SUM(s.total_amount) as total_revenue, COUNT(DISTINCT s.customer_id) as unique_customers FROM sales s JOIN products p ON s.product_id = p.product_id WHERE LOWER(p.product_name) LIKE LOWER('%"
    + Interp(Capture(m, 1)) + "%') AND s.sale_date BETWEEN '" + Interp(Capture(m, 2)) + "' AND '" + Interp(Capture(m, 3))
    + "' GROUP BY p.product_name, s.sale_date ORDER BY s.sale_date"
  }

  /** The month restriction of the sales summary, for a month capture `month`. */
  function MonthClause(month: string): string {
    "AND strftime('%Y-%m', s.sale_date) = '" + month + "'"
  }

  const SummaryHead := "SELECT p.product_name, COUNT(s.sale_id) as number_of_sales, SUM(s.quantity) as total_quantity_sold, ROUND(SUM(s.total_amount), 2) as total_revenue, ROUND(AVG(s.total_amount), 2) as avg_sale_value FROM sales s JOIN products p ON s.product_id = p.product_id WHERE LOWER(p.product_name) LIKE LOWER('%"
  const SummaryTail := " GROUP BY p.product_name"

  function ProductSummarySql(m: Captures): string {
    var dateFilter := if Truthy(Capture(m, 2)) then MonthClause(Capture(m, 2).value) else "";
    SummaryHead + Interp(Capture(m, 1)) + "%') " + dateFilter + SummaryTail
  }

  function CustomerSalesSql(m: Captures): string {
    "SELECT c.customer_name, p.product_name, s.sale_date, s.quantity, s.total_amount FROM sales s JOIN customers c ON s.customer_id = c.customer_id JOIN products p ON s.product_id = p.product_id WHERE LOWER(c.customer_name) LIKE LOWER('%"
    + Interp(Capture(m, 1)) + "%') ORDER BY s.sale_date DESC"
  }

  function PriceRangeSql(m: Captures): string {
    "SELECT product_name, category, price, stock_quantity FROM products WHERE price BETWEEN "
    + Interp(Capture(m, 1)) + " AND " + Interp(Capture(m, 2)) + " ORDER BY price"
  }

  function SalaryAboveSql(m: Captures): string {
    "SELECT e.first_name, e.last_name, e.position, d.department_name, e.salary FROM employees e JOIN departments d ON e.department_id = d.department_id WHERE e.salary > "
    + Interp(Capture(m, 1)) + " ORDER BY e.salary DESC"
  }

  function CategoryRevenueSql(m: Captures): string {
    "SELECT p.category, COUNT(DISTINCT p.product_id) as products_in_category, SUM(s.quantity) as units_sold, ROUND(SUM(s.total_amount), 2) as total_revenue FROM sales s JOIN products p ON s.product_id = p.product_id WHERE LOWER(p.category) LIKE LOWER('%"
    + Interp(Capture(m, 1)) + "%') GROUP BY p.category"
  }

  function DepartmentEmployeesSql(m: Captures): string {
    "SELECT e.employee_id, e.first_name, e.last_name, e.position, e.salary FROM employees e JOIN departments d ON e.department_id = d.department_id WHERE LOWER(d.department_name) LIKE LOWER('%"
    + Interp(Capture(m, 1)) + "%') ORDER BY e.salary DESC"
  }

  /** The look-back period of the recent-hires query: `parseInt` of capture 1, or 12 without one. */
  function RecentHiresPeriod(m: Captures): JsNumber.Number {
    if Truthy(Capture(m, 1)) then JsNumber.ParseInt(Capture(m, 1).value) else JsNumber.Finite(12)
  }

  const RecentHiresHead := "SELECT first_name, last_name, position, department_name, hire_date FROM employees e JOIN departments d ON e.department_id = d.department_id WHERE hire_date >= date('now', '-"
  const RecentHiresTail := " months') ORDER BY hire_date DESC"

  function RecentHiresSql(m: Captures): string {
    RecentHiresHead + JsNumber.ToString(RecentHiresPeriod(m)) + RecentHiresTail
  }

  // ---------------------------------------------------------------------------
  // Static statements
  // ---------------------------------------------------------------------------

  const AllEmployeesSql := "SELECT e.employee_id, e.first_name, e.last_name, e.email, d.department_name, e.position, e.salary, e.hire_date FROM employees e LEFT JOIN departments d ON e.department_id = d.department_id ORDER BY e.employee_id"
  const HighestPaidSql := "SELECT first_name, last_name, position, salary, department_name FROM employees e JOIN departments d ON e.department_id = d.department_id ORDER BY salary DESC LIMIT 5"
  const AverageSalarySql := "SELECT d.department_name, COUNT(e.employee_id) as employee_count, ROUND(AVG(e.salary), 2) as avg_salary, MIN(e.salary) as min_salary, MAX(e.salary) as max_salary FROM departments d LEFT JOIN employees e ON d.department_id = e.department_id GROUP BY d.department_name ORDER BY avg_salary DESC"
  const TotalSalesSql := "SELECT COUNT(*) as total_transactions, SUM(quantity) as total_units_sold, ROUND(SUM(total_amount), 2) as total_revenue FROM sales"
  const MonthlySalesSql := "SELECT strftime('%Y-%m', sale_date) as month, COUNT(*) as transactions, SUM(quantity) as units_sold, ROUND(SUM(total_amount), 2) as revenue FROM sales GROUP BY month ORDER BY month DESC"
  const TopProductsSql := "SELECT p.product_name, p.category, SUM(s.quantity) as total_quantity_sold, COUNT(s.sale_id) as number_of_sales, ROUND(SUM(s.total_amount), 2) as total_revenue FROM products p JOIN sales s ON p.product_id = s.product_id GROUP BY p.product_id, p.product_name, p.category ORDER BY total_quantity_sold DESC LIMIT 10"
  const SalesByEmployeeSql := "SELECT e.first_name || ' ' || e.last_name as employee_name, e.position, COUNT(s.sale_id) as number_of_sales, SUM(s.quantity) as units_sold, ROUND(SUM(s.total_amount), 2) as total_revenue FROM employees e JOIN sales s ON e.employee_id = s.employee_id GROUP BY e.employee_id, e.first_name, e.last_name, e.position ORDER BY total_revenue DESC"
  const LowStockSql := "SELECT product_name, category, stock_quantity, price FROM products WHERE stock_quantity < 50 ORDER BY stock_quantity ASC"
  const ProductCategoriesSql := "SELECT category, COUNT(*) as product_count, ROUND(AVG(price), 2) as avg_price, SUM(stock_quantity) as total_stock FROM products GROUP BY category ORDER BY product_count DESC"
  const TopCustomersSql := "SELECT c.customer_name, c.city, c.country, COUNT(s.sale_id) as number_of_orders, SUM(s.quantity) as total_units, ROUND(SUM(s.total_amount), 2) as total_spent FROM customers c JOIN sales s ON c.customer_id = s.customer_id GROUP BY c.customer_id, c.customer_name, c.city, c.country ORDER BY total_spent DESC LIMIT 10"
  const CustomerCountriesSql := "SELECT country, COUNT(*) as customer_count, COUNT(DISTINCT city) as cities FROM customers GROUP BY country ORDER BY customer_count DESC"
  const ActiveProjectsSql := "SELECT p.project_name, d.department_name, p.start_date, p.end_date, p.budget, p.status FROM projects p JOIN departments d ON p.department_id = d.department_id WHERE p.status IN ('In Progress', 'Active') ORDER BY p.start_date"
  const ProjectBudgetSql := "SELECT SUM(budget) as total_budget, COUNT(*) as total_projects, ROUND(AVG(budget), 2) as avg_budget, MAX(budget) as max_budget, MIN(budget) as min_budget FROM projects"
  const DepartmentOverviewSql := "SELECT d.department_name, d.location, COUNT(DISTINCT e.employee_id) as employee_count, ROUND(AVG(e.salary), 2) as avg_salary, COUNT(DISTINCT p.project_id) as active_projects, COALESCE(SUM(p.budget), 0) as total_project_budget FROM departments d LEFT JOIN employees e ON d.department_id = e.department_id LEFT JOIN projects p ON d.department_id = p.department_id AND p.status IN ('Active', 'In Progress') GROUP BY d.department_id, d.department_name, d.location ORDER BY employee_count DESC"

  // ---------------------------------------------------------------------------
  // The table
  // ---------------------------------------------------------------------------

  const SummaryDescription := "Sales summary for specific product"
  const CategoryDescription := "Revenue by product category"

  /** The first pattern of the sales-summary recognizer. */
  const SummaryPattern := @"sales\s+(?:of\s+|for\s+)?(?:product\s+)?[""']?([^""']+?)[""']?(?:\s+in\s+(\d{4}-\d{2}))?"

  /** The second pattern of the category-revenue recognizer. */
  const CategoryPattern := @"sales\s+(?:of\s+)?(\w+)\s+(?:category|products)"

  const ProductOnDate := Template([
    @"sales\s+(?:of\s+|for\s+)?(?:product\s+)?[""']?([^""']+?)[""']?\s+(?:on|in|during)\s+(\d{4}-\d{2}-\d{2})",
    @"(?:show\s+)?sales\s+(?:of\s+|for\s+)?[""']?([^""']+?)[""']?\s+(?:on|in)\s+(\d{4}-\d{2}-\d{2})"
  ], Generator(ProductOnDateSql), "Sales of specific product on specific date")

  const ProductDateRange := Template([
    @"sales\s+(?:of\s+|for\s+)?(?:product\s+)?[""']?([^""']+?)[""']?\s+(?:between|from)\s+(\d{4}-\d{2}-\d{2})\s+(?:to|and)\s+(\d{4}-\d{2}-\d{2})",
    @"(?:show\s+)?sales\s+(?:of\s+|for\s+)?[""']?([^""']+?)[""']?\s+(?:between|from)\s+(\d{4}-\d{2}-\d{2})\s+(?:to|and)\s+(\d{4}-\d{2}-\d{2})"
  ], Generator(ProductDateRangeSql), "Sales of specific product between date range")

  const ProductSummary := Template([
    SummaryPattern,
    @"(?:show\s+)?(?:me\s+)?sales\s+(?:of\s+|for\s+)?[""']?([^""']+?)[""']?(?:\s+in\s+(\w+\s+\d{4}))?",
    @"how\s+many\s+[""']?([^""']+?)[""']?\s+(?:were\s+)?sold"
  ], Generator(ProductSummarySql), SummaryDescription)

  const CustomerSales := Template([
    @"sales\s+to\s+(?:customer\s+)?[""']?([^""']+?)[""']?",
    @"what\s+did\s+(?:customer\s+)?[""']?([^""']+?)[""']?\s+buy",
    @"(?:show\s+)?purchases\s+(?:by|from)\s+(?:customer\s+)?[""']?([^""']+?)[""']?"
  ], Generator(CustomerSalesSql), "Sales to specific customer")

  const PriceRange := Template([
    @"products?\s+(?:priced\s+)?(?:between|from)\s+\$?(\d+(?:\.\d{2})?)\s+(?:to|and)\s+\$?(\d+(?:\.\d{2})?)",
    @"products?\s+(?:costing\s+)?(?:between|from)\s+\$?(\d+(?:\.\d{2})?)\s+(?:to|and)\s+\$?(\d+(?:\.\d{2})?)"
  ], Generator(PriceRangeSql), "Products within price range")

  const SalaryAbove := Template([
    @"employees?\s+(?:with\s+)?salary\s+(?:above|over|greater\s+than)\s+\$?(\d+)",
    @"who\s+earns?\s+(?:more\s+than|over)\s+\$?(\d+)"
  ], Generator(SalaryAboveSql), "Employees earning above specified amount")

  const CategoryRevenue := Template([
    @"revenue\s+(?:by|from)\s+[""']?([^""']+?)[""']?\s+(?:category|type)",
    CategoryPattern,
    @"sales\s+of\s+(\w+)\s+products",
    @"revenue\s+from\s+(\w+)\s+type"
  ], Generator(CategoryRevenueSql), CategoryDescription)

  const AllEmployees := Template([
    @"show\s+(?:me\s+)?(?:all\s+)?employees",
    @"list\s+(?:all\s+)?employees",
    @"get\s+(?:all\s+)?employees"
  ], Static(AllEmployeesSql), "Get all employees with their department information")

  const DepartmentEmployees := Template([
    @"employees\s+in\s+(\w+)(?:\s+department)?",
    @"who\s+works\s+in\s+(\w+)",
    @"show\s+(\w+)\s+department\s+employees"
  ], Generator(DepartmentEmployeesSql), "Get employees in a specific department")

  const HighestPaid := Template([
    @"highest\s+paid\s+employees?",
    @"top\s+(?:paid\s+)?employees?\s+by\s+salary",
    @"employees?\s+with\s+highest\s+salary"
  ], Static(HighestPaidSql), "Get top 5 highest paid employees")

  const AverageSalary := Template([
    @"average\s+salary\s+by\s+department",
    @"department\s+average\s+salaries",
    @"what\s+is\s+the\s+average\s+salary\s+(?:by\s+|per\s+)?department"
  ], Static(AverageSalarySql), "Average salary by department")

  const TotalSales := Template([
    @"total\s+sales",
    @"show\s+(?:me\s+)?total\s+revenue",
    @"what\s+(?:is\s+|are\s+)?(?:the\s+)?total\s+sales"
  ], Static(TotalSalesSql), "Get total sales summary")

  const MonthlySales := Template([
    @"sales\s+by\s+month",
    @"monthly\s+sales",
    @"revenue\s+by\s+month"
  ], Static(MonthlySalesSql), "Monthly sales breakdown")

  const TopProducts := Template([
    @"top\s+(?:selling\s+)?products",
    @"best\s+selling\s+products",
    @"most\s+sold\s+products"
  ], Static(TopProductsSql), "Top 10 best selling products")

  const SalesByEmployee := Template([
    @"sales\s+by\s+employee",
    @"employee\s+sales\s+performance",
    @"who\s+sold\s+the\s+most"
  ], Static(SalesByEmployeeSql), "Sales performance by employee")

  const LowStock := Template([
    @"products?\s+(?:with\s+)?low\s+stock",
    @"low\s+inventory",
    @"products?\s+running\s+out"
  ], Static(LowStockSql), "Products with low stock (less than 50 units)")

  const ProductCategories := Template([
    @"products?\s+by\s+category",
    @"(?:show\s+)?product\s+categories",
    @"what\s+categories\s+(?:do\s+we\s+have|are\s+there)"
  ], Static(ProductCategoriesSql), "Product summary by category")

  const TopCustomers := Template([
    @"top\s+customers",
    @"best\s+customers",
    @"customers?\s+by\s+(?:revenue|sales)"
  ], Static(TopCustomersSql), "Top 10 customers by revenue")

  const CustomerCountries := Template([
    @"customers?\s+by\s+country",
    @"where\s+(?:are\s+)?(?:our\s+)?customers?\s+(?:from|located)",
    @"customer\s+distribution"
  ], Static(CustomerCountriesSql), "Customer distribution by country")

  const ActiveProjects := Template([
    @"active\s+projects",
    @"current\s+projects",
    @"projects?\s+in\s+progress"
  ], Static(ActiveProjectsSql), "Currently active projects")

  const ProjectBudget := Template([
    @"project\s+budget\s+(?:usage|summary)",
    @"how\s+much\s+(?:have\s+we\s+)?spent\s+on\s+projects",
    @"total\s+project\s+budget"
  ], Static(ProjectBudgetSql), "Project budget summary")

  const DepartmentOverview := Template([
    @"department\s+(?:performance|summary|overview)",
    @"how\s+(?:is|are)\s+(?:each\s+)?department(?:s)?\s+doing"
  ], Static(DepartmentOverviewSql), "Comprehensive department overview")

  const RecentHires := Template([
    @"employees?\s+hired\s+(?:in\s+)?(?:last\s+)?(\d+)\s+(?:months?|years?)",
    @"recent\s+hires",
    @"new\s+employees"
  ], Generator(RecentHiresSql), "Recently hired employees")

  /** The recognizers in priority order. */
  function Table(): seq<Template> {
    [ ProductOnDate, ProductDateRange, ProductSummary, CustomerSales,
      PriceRange, SalaryAbove, CategoryRevenue, AllEmployees,
      DepartmentEmployees, HighestPaid, AverageSalary, TotalSales,
      MonthlySales, TopProducts, SalesByEmployee, LowStock,
      ProductCategories, TopCustomers, CustomerCountries, ActiveProjects,
      ProjectBudget, DepartmentOverview, RecentHires ]
  }

  // ---------------------------------------------------------------------------
  // Properties of the generators and of the table
  // ---------------------------------------------------------------------------

  /** The match array with group `i` reading as undefined. */
  function WithoutCapture(m: Captures, i: nat): (r: Captures)
    ensures Capture(r, i) == None
    ensures forall j: nat :: j != i ==> Capture(r, j) == Capture(m, j)
  {
    if i < |m| then m[i := None] else m
  }

  /**
   The sales summary carries the month restriction exactly when capture 2 is
   truthy; the clause is inserted just before the GROUP BY and the statement
   is otherwise the one produced without a month.
   */
  lemma ProductSummaryMonthFilter(m: Captures)
    ensures var base := ProductSummarySql(WithoutCapture(m, 2));
      && |base| >= |SummaryTail|
      && (Truthy(Capture(m, 2)) ==>
            ProductSummarySql(m) == base[..|base| - |SummaryTail|] + MonthClause(Capture(m, 2).value) + base[|base| - |SummaryTail|..])
      && (!Truthy(Capture(m, 2)) ==> ProductSummarySql(m) == base)
      && (ProductSummarySql(m) == base <==> !Truthy(Capture(m, 2)))
  {
    var m' := WithoutCapture(m, 2);
    var base := ProductSummarySql(m');
    var front := SummaryHead + Interp(Capture(m, 1)) + "%') ";
    assert base == front + "" + SummaryTail;
    assert base[..|base| - |SummaryTail|] == front;
    assert base[|base| - |SummaryTail|..] == SummaryTail;
    if Truthy(Capture(m, 2)) {
      assert |ProductSummarySql(m)| > |base|;
    }
  }

  /** A splice is determined by what is spliced in. */
  lemma SpliceInjective(head: string, x: string, y: string, tail: string)
    requires head + x + tail == head + y + tail
    ensures x == y
  {
    var s := head + x + tail;
    assert |x| == |y|;
    assert x == s[|head|..|head| + |x|];
    assert y == (head + y + tail)[|head|..|head| + |y|];
  }

  /** Without a truthy capture 1 the recent-hires query looks back as far as an explicit "12" would. */
  lemma RecentHiresDefault(m: Captures, whole: Option<string>)
    requires !Truthy(Capture(m, 1))
    ensures RecentHiresSql(m) == RecentHiresSql([whole, Some("12")])
  {
    var twelve: Captures := [whole, Some("12")];
    TwelveParses();
    assert Capture(twelve, 1) == Some("12");
    assert RecentHiresPeriod(twelve) == JsNumber.Finite(12) == RecentHiresPeriod(m);
  }

  lemma TwelveParses()
    ensures JsNumber.ParseInt("12") == JsNumber.Finite(12)
  {
    TwelveDigits();
    JsNumber.ParseIntOfDecimalDigits("12");
  }

  lemma TwelveDigits()
    ensures JsNumber.AllDigits("12", 10) && JsNumber.DigitsValue("12", 10) == 12
  {
    assert JsNumber.DigitValue('1', 10) == 1 && JsNumber.DigitValue('2', 10) == 2;
    assert JsNumber.AllDigits("12", 10);
    assert "12"[..1] == "1";
    assert "1"[..0] == "";
  }

  /**
   A capture of decimal digits is read as the number it denotes: leading zeros
   are dropped and only the value reaches the SQL. The unit word of the
   pattern (months or years) is not captured, so it never does.
   */
  lemma RecentHiresDigits(m: Captures, whole: Option<string>)
    requires Capture(m, 1).Some? && |Capture(m, 1).value| > 0 && JsNumber.AllDigits(Capture(m, 1).value, 10)
    ensures RecentHiresPeriod(m) == JsNumber.Finite(JsNumber.DigitsValue(Capture(m, 1).value, 10))
    ensures RecentHiresSql(m) == RecentHiresSql([whole, Some(JsNumber.NatToString(JsNumber.DigitsValue(Capture(m, 1).value, 10)))])
  {
    var n := JsNumber.DigitsValue(Capture(m, 1).value, 10);
    JsNumber.ParseIntOfDecimalDigits(Capture(m, 1).value);
    JsNumber.ParseIntRoundTrip(n);
  }

  /** Different look-back periods give different statements. */
  lemma RecentHiresPeriodsDistinct(a: nat, b: nat, whole: Option<string>)
    requires a != b
    ensures RecentHiresSql([whole, Some(JsNumber.NatToString(a))]) != RecentHiresSql([whole, Some(JsNumber.NatToString(b))])
  {
    JsNumber.ParseIntRoundTrip(a);
    JsNumber.ParseIntRoundTrip(b);
    var sa := JsNumber.ToString(JsNumber.Finite(a));
    var sb := JsNumber.ToString(JsNumber.Finite(b));
    assert sa != sb;
    assert RecentHiresPeriod([whole, Some(JsNumber.NatToString(a))]) == JsNumber.Finite(a);
    assert RecentHiresPeriod([whole, Some(JsNumber.NatToString(b))]) == JsNumber.Finite(b);
    if RecentHiresHead + sa + RecentHiresTail == RecentHiresHead + sb + RecentHiresTail {
      SpliceInjective(RecentHiresHead, sa, sb, RecentHiresTail);
    }
  }


  /** The table holds twenty-three recognizers; the three sales recognizers lead it and category revenue is seventh. */
  lemma TableLayout()
    ensures |Table()| == 23 && |Table()[0].patterns| > 0
    ensures Table()[6].description == CategoryDescription
    ensures |Table()[2].patterns| > 0 && Table()[2].patterns[0] == SummaryPattern
    ensures Table()[0].description == ProductOnDate.description
    ensures Table()[1].description == ProductDateRange.description
    ensures Table()[2].description == SummaryDescription
  {
  }

  /** A hit in the third recognizer of any table decides the answer among the first three. */
  lemma HitInThird(re: RegexEngine, table: seq<Template>, query: string)
    requires |table| >= 3 && |table[2].patterns| > 0
    requires re(table[2].patterns[0], Text.Normalize(query)).Some?
    ensures var r := FindMatchingTemplate(re, table, query);
      && r.Matched?
      && (r.description == table[0].description
          || r.description == table[1].description
          || r.description == table[2].description)
  {
    var q := Text.Normalize(query);
    var k := HitBoundsWinner(re, table, q, 2, 0);
    var d := FindIn(re, table, q).description;
    assert FindMatchingTemplate(re, table, query) == FindIn(re, table, q);
    if k == 0 {
      assert d == table[0].description;
    } else if k == 1 {
      assert d == table[1].description;
    } else {
      assert k == 2;
      assert d == table[2].description;
    }
  }

  /**
   The sales-summary recognizer sits before the category-revenue one, so any
   query its first pattern accepts never reaches the category statement, even
   when the category pattern would accept it too.
   */
  lemma SummaryShadowsCategory(re: RegexEngine, query: string)
    requires re(SummaryPattern, Text.Normalize(query)).Some?
    ensures var r := FindMatchingTemplate(re, Table(), query);
      && r.Matched?
      && (r.description == ProductOnDate.description
          || r.description == ProductDateRange.description
          || r.description == SummaryDescription)
      && r.description != CategoryDescription
  {
    TableLayout();
    HitInThird(re, Table(), query);
    assert CategoryDescription[0] == 'R';
    assert ProductOnDate.description[0] == 'S';
    assert ProductDateRange.description[0] == 'S';
    assert SummaryDescription[0] == 'S';
  }
}
