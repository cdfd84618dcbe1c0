/** The admin resource page: the badge for a resource's status and the colour
    of its stock bar. */
module Resources {
  import opened Domain

  /** `getStatusVariant`: Optimal, Low and Depleted have their own badge;
      any other status text gets the outline badge. */
  function StatusVariant(status: string): (v: BadgeVariant)
    ensures v == Default <==> status == "Optimal"
    ensures v == Secondary <==> status == "Low"
    ensures v == Destructive <==> status == "Depleted"
    ensures v == Outline <==> status !in {"Optimal", "Low", "Depleted"}
  {
    if status == "Optimal" then Default
    else if status == "Low" then Secondary
    else if status == "Depleted" then Destructive
    else Outline
  }

  /** The three colours of the stock bar. */
  datatype BarClass = BgDestructive | BgAccent | BgPrimary

  function BarClassName(c: BarClass): string
  {
    match c
    case BgDestructive => "bg-destructive"
    case BgAccent => "bg-accent"
    case BgPrimary => "bg-primary"
  }

  /** `getProgressIndicatorClassName`: under 20 is critical, under 50 is low,
      the rest is healthy. */
  function ProgressClass(stock: int): (c: BarClass)
    ensures c == BgDestructive <==> stock < 20
    ensures c == BgAccent <==> 20 <= stock < 50
    ensures c == BgPrimary <==> 50 <= stock
  {
    if stock < 20 then BgDestructive
    else if stock < 50 then BgAccent
    else BgPrimary
  }

  /** How alarming a bar colour is. */
  function Alarm(c: BarClass): nat
  {
    match c
    case BgDestructive => 2
    case BgAccent => 1
    case BgPrimary => 0
  }

  /** More stock never shows a more alarming bar. */
  lemma MoreStockIsNoMoreAlarming(a: int, b: int)
    requires a <= b
    ensures Alarm(ProgressClass(b)) <= Alarm(ProgressClass(a))
  {
  }
}
