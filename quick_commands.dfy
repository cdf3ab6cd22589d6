/** Where each quick command button of the site assistant is routed: the
    first books a transfer, the other three ask the chat. */
module QuickCommandRoutes {
  import opened Web
  import opened ChatRouting

  /** The first quick command, in either language, is a booking. */
  lemma QuickBookingCommand(isEn: bool)
    ensures IsBooking(QuickCommands(isEn)[0])
  {
    if isEn {
      BookingInfix("Create ", "book", "ing", 3);
      assert "Create " + "book" + "ing" == QuickCommands(isEn)[0];
    } else {
      BookingInfix("Оформить ", "бронь", "", 0);
      assert "Оформить " + "бронь" + "" == QuickCommands(isEn)[0];
    }
  }

  /** Each of the other three commands, in either language, lacks a letter
      of every keyword, in both cases, and so goes to the chat. */
  lemma FleetCommandEn() ensures !IsBooking(QuickCommands(true)[1])
  {
    NotBooking("Show fleet", ('б', 'Б'), ('з', 'З'), ('r', 'R'), ('b', 'B'));
  }

  lemma ManagerCommandEn() ensures !IsBooking(QuickCommands(true)[2])
  {
    NotBooking("Contact manager", ('б', 'Б'), ('з', 'З'), ('f', 'F'), ('b', 'B'));
  }

  lemma PriceCommandEn() ensures !IsBooking(QuickCommands(true)[3])
  {
    NotBooking("Pricing info", ('б', 'Б'), ('з', 'З'), ('t', 'T'), ('b', 'B'));
  }

  lemma FleetCommandRu() ensures !IsBooking(QuickCommands(false)[1])
  {
    NotBooking("Показать автопарк", ('б', 'Б'), ('я', 'Я'), ('t', 'T'), ('b', 'B'));
  }

  lemma ManagerCommandRu() ensures !IsBooking(QuickCommands(false)[2])
  {
    NotBooking("Связаться с менеджером", ('б', 'Б'), ('к', 'К'), ('s', 'S'), ('k', 'K'));
  }

  lemma PriceCommandRu() ensures !IsBooking(QuickCommands(false)[3])
  {
    NotBooking("Узнать цену", ('б', 'Б'), ('я', 'Я'), ('t', 'T'), ('b', 'B'));
  }

  lemma QuickChatCommand(isEn: bool, i: nat)
    requires 1 <= i < 4
    ensures !IsBooking(QuickCommands(isEn)[i])
  {
    if isEn {
      if i == 1 { FleetCommandEn(); } else if i == 2 { ManagerCommandEn(); } else { PriceCommandEn(); }
    } else {
      if i == 1 { FleetCommandRu(); } else if i == 2 { ManagerCommandRu(); } else { PriceCommandRu(); }
    }
  }

  /** Only the first quick command is a booking, and no command is blank. */
  lemma QuickCommandRoute(isEn: bool, i: nat)
    requires i < 4
    ensures RouteOf(QuickCommands(isEn)[i]) == (if i == 0 then BookingPath else ChatPath)
  {
    assert !IsSpace(QuickCommands(isEn)[i][0]);
    if i == 0 { QuickBookingCommand(isEn); } else { QuickChatCommand(isEn, i); }
  }
}
