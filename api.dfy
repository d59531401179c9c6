/** The REST calls the client issues, as values. Each page object keeps the
    requests it has sent in order, so "no request is sent" is a statement
    about that log. Bodies carry exactly the fields the client puts in them. */
module Api {
  import opened Wrappers

  /** One line of an order-creation body: `{service_id, quantity}`. */
  datatype OrderItem = OrderItem(serviceId: int, quantity: real)

  /** The body of `POST /services` and `PUT /services/:id`; `price` is
      `parseFloat(price)`, with None for a blank field (NaN). */
  datatype ServicePayload = ServicePayload(name: string, unit: string, price: Option<real>)

  /** The `customer_id` of an order-creation body: left out (the customer's
      own order, the server takes the caller), or the cashier's pick, where
      the blank option sends an empty string (None). */
  datatype CustomerField = Omitted | Picked(customer: Option<int>)

  datatype Request =
    | CreateOrder(customerId: CustomerField, items: seq<OrderItem>, paymentMethod: string)  // POST /orders
    | PayOrder(orderId: int, amountPaid: real)                                            // POST /orders/:id/pay
    | Track(trackingId: string)                                                            // GET /tracking/:id
    | UpdateStatus(orderId: int, status: string)                                          // PUT /orders/:id/status
    | AssignDriver(orderId: int, driverId: string)                                        // PUT /orders/:id/assign-driver
    | DriverAction(orderId: int, endpoint: string)                                        // PUT /orders/:id/pickup | deliver
    | UpdateUserRole(userId: int, role: string)                                           // PUT /users/:id
    | CreateService(payload: ServicePayload)                                              // POST /services
    | UpdateService(serviceId: int, payload: ServicePayload)                              // PUT /services/:id
    | DeleteService(serviceId: int)                                                       // DELETE /services/:id
    | Login(username: string, password: string)                                           // POST /login
}
