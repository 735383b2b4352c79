/** The records, tags and constant tables shared by the stores of the
    point-of-sale app (src/lib/types/index.ts). */
module Types {
  import opened Wrappers

  // ---------------------------------------------------------------------------
  // VAT of La Réunion

  /** The two VAT rates of an overseas department: the reduced rate for food
      and restaurant service, the normal rate for alcoholic drinks. */
  datatype VatRate = Reduced | Normal {
    /** The rate as a percentage. */
    function Percent(): (p: real)
      ensures p > 0.0
    {
      match this
      case Reduced => 2.1
      case Normal => 8.5
    }
  }

  datatype VatInfo = VatInfo(rate: VatRate, displayLabel: string, description: string)

  /** The `VAT_RATES` table, keyed by rate. */
  function VatInfoOf(r: VatRate): (info: VatInfo)
    ensures info.rate == r
  {
    match r
    case Reduced => VatInfo(Reduced, "2,1%", "Taux réduit DOM (restauration, alimentaire)")
    case Normal => VatInfo(Normal, "8,5%", "Taux normal DOM (boissons alcoolisées)")
  }

  /** A VAT rate is 2.1 % or 8.5 % and nothing else, and the two differ. */
  lemma VatRateValues(r: VatRate)
    ensures r.Percent() == 2.1 || r.Percent() == 8.5
    ensures Reduced.Percent() != Normal.Percent()
  {
  }

  // ---------------------------------------------------------------------------
  // Catalog

  datatype Category =
    | Repas | Boissons | BoissonsAlcool | Desserts | Sandwichs
    | Glaces | Formules | Snacks | Autres

  /** A catalog entry. `stock` and `minStock` are optional; colour, icon and
      the creation and update dates are not modelled. */
  datatype Product = Product(
    id: string,
    name: string,
    price: real,
    category: Category,
    vatRate: VatRate,
    stock: Option<int>,
    minStock: Option<int>,
    isActive: bool)

  // ---------------------------------------------------------------------------
  // Cart and transactions

  /** One cart line: a product snapshot, a quantity, and the derived
      tax-inclusive subtotal and the VAT it contains. */
  datatype CartItem = CartItem(product: Product, quantity: int, subtotal: real, vatAmount: real)

  /** The derived view of a cart: `subtotal` is before tax, `total` includes it. */
  datatype Cart = Cart(items: seq<CartItem>, subtotal: real, totalVat: real, total: real, itemCount: int)

  datatype PaymentMethod = Cash | Card | Cheque | Ticket

  type Hour = h: int | 0 <= h < 24
  type Weekday = d: int | 0 <= d < 7

  /** What the model keeps of a JavaScript `Date`: an instant used for the
      trailing-window cutoff, the local calendar day, the local hour and the
      local day of the week (0 = Sunday). */
  datatype Stamp = Stamp(instant: int, dayKey: int, hour: Hour, weekday: Weekday)

  /** A recorded sale. The employee fields, never set by the core, are left out. */
  datatype Transaction = Transaction(
    id: string,
    items: seq<CartItem>,
    subtotal: real,
    totalVat: real,
    total: real,
    paymentMethod: PaymentMethod,
    cashGiven: Option<real>,
    change: Option<real>,
    timestamp: Stamp,
    receiptNumber: string)

  // ---------------------------------------------------------------------------
  // Analytics

  datatype HourlySales = HourlySales(hour: int, revenue: real, transactionCount: nat, customerCount: nat)

  /** Traffic level of an hour relative to the busiest hour. */
  datatype Level = Low | Medium | High

  datatype PeakHour = PeakHour(hour: int, averageCustomers: real, averageRevenue: real, level: Level)

  /** Staffing advice for the hours [startHour, endHour). The display string of
      the slot is not modelled. */
  datatype StaffRecommendation = StaffRecommendation(
    startHour: int,
    endHour: int,
    recommendedStaff: nat,
    trafficLevel: Level,
    reason: string)

  datatype TrafficAnalysis = TrafficAnalysis(
    peakHours: seq<PeakHour>,
    recommendations: seq<StaffRecommendation>,
    averageCustomersPerHour: real,
    busiestDay: string,
    quietestDay: string)

  datatype StockStatus = StockLow | StockCritical | StockOut

  datatype StockAlert = StockAlert(product: Product, currentStock: int, minStock: int, status: StockStatus)

  datatype ProductSales = ProductSales(product: Product, quantitySold: int, revenue: real)

  datatype DashboardStats = DashboardStats(
    todayRevenue: real,
    todayTransactions: nat,
    averageTicket: real,
    comparisonYesterday: real,
    topProducts: seq<ProductSales>,
    stockAlerts: seq<StockAlert>,
    hourlyData: seq<HourlySales>)

  // ---------------------------------------------------------------------------
  // Users and permissions

  datatype UserRole = Owner | Secretary | Employee

  /** A staff account; the creation date is not modelled. */
  datatype User = User(id: string, name: string, pin: string, role: UserRole, isActive: bool)

  datatype Permissions = Permissions(
    displayLabel: string,
    canAccessDashboard: bool,
    canAccessProducts: bool,
    canAccessSettings: bool,
    canAccessEmployees: bool,
    canViewRemotely: bool)
  {
    /** The flag a permission key names. */
    function Grants(p: Permission): bool {
      match p
      case Dashboard => canAccessDashboard
      case ProductsAccess => canAccessProducts
      case Settings => canAccessSettings
      case Employees => canAccessEmployees
      case ViewRemotely => canViewRemotely
    }
  }

  /** The keys of a permission row. */
  datatype Permission = Dashboard | ProductsAccess | Settings | Employees | ViewRemotely

  /** Every flag `b` grants, `a` grants too. */
  predicate Includes(a: Permissions, b: Permissions) {
    forall p: Permission :: b.Grants(p) ==> a.Grants(p)
  }

  /** The `ROLE_PERMISSIONS` table. */
  function RolePermissions(role: UserRole): Permissions {
    match role
    case Owner => Permissions("Patron", true, true, true, true, true)
    case Secretary => Permissions("Secrétaire", true, true, false, false, true)
    case Employee => Permissions("Employé", false, false, false, false, false)
  }

  /** The owner holds every permission; the secretary holds the dashboard,
      the products and remote viewing but not settings or employees; an
      employee holds none; so the rows nest employee ⊆ secretary ⊆ owner. */
  lemma RolePermissionRows(p: Permission)
    ensures RolePermissions(Owner).Grants(p)
    ensures RolePermissions(Secretary).Grants(p) <==> p in {Dashboard, ProductsAccess, ViewRemotely}
    ensures !RolePermissions(Employee).Grants(p)
    ensures Includes(RolePermissions(Owner), RolePermissions(Secretary))
    ensures Includes(RolePermissions(Secretary), RolePermissions(Employee))
  {
  }
}
