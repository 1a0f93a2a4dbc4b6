/**
 The `/create-order` endpoint: the amount gate in front of the payment
 provider's order API. The provider is a parameter; the exchange records
 which request, if any, was sent to it and what the caller was answered.
 */
module Orders {
  import opened Wrappers
  import opened AmountPolicy

  const Currency := "INR"
  const CustomerId := "customer_1"
  const CustomerPhone := "9999999999"
  const NotifyUrl := "https://smart-change-backend.onrender.com/cashfree-webhook"
  const AmountRejectedMessage := "Amount must be 10-101"
  const ProviderFailedMessage := "Cashfree Order Failed"

  /** The order sent to the provider's order API. */
  datatype OrderRequest = OrderRequest(
    orderId: string,
    orderAmount: int,
    currency: string,
    customerId: string,
    customerPhone: string,
    notifyUrl: string)

  /** What the provider answers: a checkout link, or an error whose detail
      is either the provider's error body or the transport's message. */
  datatype ProviderReply = LinkIssued(paymentLink: string) | ProviderError(detail: string)

  /** The three answers the endpoint can give its caller. */
  datatype OrderReply =
    | AmountRejected(error: string)
    | OrderCreated(paymentLink: string, orderId: string)
    | OrderFailed(error: string, debugInfo: string)
  {
    function HttpStatus(): int
    {
      match this
      case AmountRejected(_) => 400
      case OrderCreated(_, _) => 200
      case OrderFailed(_, _) => 500
    }
  }

  /** One call of the endpoint: the provider request it made (if any) and its reply. */
  datatype Exchange = Exchange(sent: Option<OrderRequest>, reply: OrderReply)

  /** Handles a create-order request whose body carries `amount`; `orderId`
      stands for the clock-derived identifier and `provider` for the order API. */
  function CreateOrder(amount: Amount, orderId: string, provider: OrderRequest -> ProviderReply): (e: Exchange)
    ensures e.sent.None? <==> !IsValidAmount(amount)
    ensures e.sent.None? ==> e.reply == AmountRejected(AmountRejectedMessage) && e.reply.HttpStatus() == 400
    ensures e.sent.Some? ==>
      && Whole(e.sent.value.orderAmount) == amount
      && e.sent.value == OrderRequest(orderId, e.sent.value.orderAmount, Currency,
                                      CustomerId, CustomerPhone, NotifyUrl)
    ensures e.reply.OrderCreated? <==> e.sent.Some? && provider(e.sent.value).LinkIssued?
    ensures e.reply.OrderCreated? ==>
      e.reply.orderId == orderId && e.reply.paymentLink == provider(e.sent.value).paymentLink
    ensures e.reply.OrderFailed? <==> e.sent.Some? && provider(e.sent.value).ProviderError?
    ensures e.reply.OrderFailed? ==>
      e.reply.error == ProviderFailedMessage && e.reply.debugInfo == provider(e.sent.value).detail
  {
    if !IsValidAmount(amount) then
      Exchange(None, AmountRejected(AmountRejectedMessage))
    else
      var request := OrderRequest(orderId, amount.x.Floor, Currency, CustomerId, CustomerPhone, NotifyUrl);
      match provider(request)
      case LinkIssued(link) => Exchange(Some(request), OrderCreated(link, orderId))
      case ProviderError(detail) => Exchange(Some(request), OrderFailed(ProviderFailedMessage, detail))
  }

  /** A rejected amount never reaches the provider: whatever the provider
      would have answered, the exchange is the same 400 with no request. */
  lemma RejectedOrderIgnoresProvider(amount: Amount, orderId: string,
                                     p: OrderRequest -> ProviderReply, q: OrderRequest -> ProviderReply)
    requires !IsValidAmount(amount)
    ensures CreateOrder(amount, orderId, p) == CreateOrder(amount, orderId, q)
    ensures CreateOrder(amount, orderId, p).reply.HttpStatus() == 400
  {
  }

  /** The reply is a success exactly when the amount passed the policy and
      the provider issued a link. */
  lemma OrderSucceedsIffValidAndLinked(amount: Amount, orderId: string, p: OrderRequest -> ProviderReply)
    ensures CreateOrder(amount, orderId, p).reply.HttpStatus() == 200
        <==> IsValidAmount(amount) && p(CreateOrder(amount, orderId, p).sent.value).LinkIssued?
  {
  }
}
